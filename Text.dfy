/**
 * String helpers behind the matcher and the notification text: ASCII
 * lower-casing (standing in for Python's str.lower), the substring test
 * behind Python's `in`, and str.join.
 */
module Text {

  /** Lower-cases one ASCII letter; every other character is kept. */
  function LowerChar(c: char): (r: char)
    ensures !('A' <= r <= 'Z')
    ensures 'A' <= c <= 'Z' || r == c
    ensures 'a' <= c <= 'z' ==> r == c
  {
    if 'A' <= c <= 'Z' then (c as int - 'A' as int + 'a' as int) as char else c
  }

  function Lower(s: string): string
  {
    seq(|s|, i requires 0 <= i < |s| => LowerChar(s[i]))
  }

  lemma LowerOfPrefix(s: string, k: nat)
    requires k <= |s|
    ensures Lower(s[..k]) == Lower(s)[..k]
  {
  }

  /** Python's slice `s[:n]`. */
  function Take(s: string, n: nat): (r: string)
    ensures |r| == if |s| < n then |s| else n
    ensures r == s[..|r|]
  {
    if |s| <= n then s else s[..n]
  }

  /** `needle` occurs in `hay` starting at index `i`. */
  predicate OccursAt(hay: string, needle: string, i: int)
  {
    0 <= i && i + |needle| <= |hay| && hay[i..i + |needle|] == needle
  }

  /** Python's `needle in hay`, as a left-to-right scan of the start positions. */
  predicate Contains(hay: string, needle: string)
    decreases |hay|
  {
    if |needle| > |hay| then false
    else hay[..|needle|] == needle || Contains(hay[1..], needle)
  }

  /** The scan finds the needle exactly when it occurs somewhere. */
  lemma {:induction false} ContainsIffOccurs(hay: string, needle: string)
    ensures Contains(hay, needle) <==> exists i :: OccursAt(hay, needle, i)
    decreases |hay|
  {
    if |needle| > |hay| {
      forall i | OccursAt(hay, needle, i) ensures false { }
    } else if hay[..|needle|] == needle {
      assert OccursAt(hay, needle, 0);
    } else {
      var tail := hay[1..];
      ContainsIffOccurs(tail, needle);
      if Contains(tail, needle) {
        var j :| OccursAt(tail, needle, j);
        assert hay[j + 1..j + 1 + |needle|] == tail[j..j + |needle|];
        assert OccursAt(hay, needle, j + 1);
      }
      if i :| OccursAt(hay, needle, i) {
        assert i != 0;
        assert tail[i - 1..i - 1 + |needle|] == hay[i..i + |needle|];
        assert OccursAt(tail, needle, i - 1);
      }
    }
  }

  /** An occurrence in a prefix of `hay` is an occurrence in `hay`. */
  lemma OccursInPrefix(hay: string, needle: string, k: nat, i: int)
    requires k <= |hay| && OccursAt(hay[..k], needle, i)
    ensures OccursAt(hay, needle, i) && i + |needle| <= k
  {
    assert hay[..k][i..i + |needle|] == hay[i..i + |needle|];
  }

  /** An occurrence in `b` is an occurrence in `a + b`, shifted by |a|. */
  lemma OccursAfter(a: string, b: string, needle: string, j: int)
    requires OccursAt(b, needle, j)
    ensures OccursAt(a + b, needle, |a| + j)
  {
    assert (a + b)[|a| + j..|a| + j + |needle|] == b[j..j + |needle|];
  }

  /** Python's `sep.join(parts)`. */
  function Join(parts: seq<string>, sep: string): string
  {
    if |parts| == 0 then ""
    else if |parts| == 1 then parts[0]
    else parts[0] + sep + Join(parts[1..], sep)
  }

  /** Every joined part can be found in the joined text. */
  lemma {:induction false} JoinContainsEach(parts: seq<string>, sep: string, k: nat)
    requires k < |parts|
    ensures exists i :: OccursAt(Join(parts, sep), parts[k], i)
    decreases |parts|
  {
    var joined := Join(parts, sep);
    if |parts| == 1 {
      assert joined[0..|parts[0]|] == parts[0];
      assert OccursAt(joined, parts[k], 0);
    } else if k == 0 {
      assert joined[0..|parts[0]|] == parts[0];
      assert OccursAt(joined, parts[k], 0);
    } else {
      JoinContainsEach(parts[1..], sep, k - 1);
      var j :| OccursAt(Join(parts[1..], sep), parts[k], j);
      OccursAfter(parts[0] + sep, Join(parts[1..], sep), parts[k], j);
    }
  }

  /** In-order concatenation of string pieces. */
  function Concat(pieces: seq<string>): string
  {
    if pieces == [] then "" else pieces[0] + Concat(pieces[1..])
  }

  /** Concatenation of the pieces accumulated into `acc` one at a time. */
  function AppendEach(acc: string, pieces: seq<string>): string
    decreases pieces
  {
    if pieces == [] then acc else AppendEach(acc + pieces[0], pieces[1..])
  }

  /** The accumulator loop builds the concatenation of its pieces after `acc`. */
  lemma {:induction false} AppendEachIsConcat(acc: string, pieces: seq<string>)
    ensures AppendEach(acc, pieces) == acc + Concat(pieces)
    decreases pieces
  {
    if pieces != [] {
      AppendEachIsConcat(acc + pieces[0], pieces[1..]);
      assert acc + pieces[0] + Concat(pieces[1..]) == acc + (pieces[0] + Concat(pieces[1..]));
    }
  }
}
