/**
 * The PHP string primitives that `SQLQueryList::sort` relies on: `strtolower`,
 * `stristr` and the truthiness of a string. PHP 8.2 and later lower-case ASCII letters only,
 * so only 'A'..'Z' are mapped.
 */
module PhpString {

  /** `strtolower` on one character. */
  function LowerChar(c: char): char
  {
    if 'A' <= c <= 'Z' then (c as int + 32) as char else c
  }

  /** `strtolower`: every ASCII upper-case letter replaced by its lower-case form. */
  function Lower(s: string): (r: string)
    ensures |r| == |s|
    ensures forall i :: 0 <= i < |s| ==> r[i] == LowerChar(s[i])
  {
    if s == [] then [] else [LowerChar(s[0])] + Lower(s[1..])
  }

  /** Lower-casing twice is lower-casing once. */
  lemma LowerIdempotent(s: string)
    ensures Lower(Lower(s)) == Lower(s)
  {
    var l := Lower(s);
    assert forall i :: 0 <= i < |s| ==> Lower(l)[i] == LowerChar(LowerChar(s[i])) == l[i];
  }

  /** Lower-casing works character by character, so it distributes over concatenation. */
  lemma LowerAppend(a: string, b: string)
    ensures Lower(a + b) == Lower(a) + Lower(b)
  {
    var l, r := Lower(a + b), Lower(a) + Lower(b);
    forall i | 0 <= i < |l| ensures l[i] == r[i] {
      if i < |a| { assert (a + b)[i] == a[i]; } else { assert (a + b)[i] == b[i - |a|]; }
    }
  }

  /** PHP's truthiness of a string: every string is true except "" and "0". */
  predicate Truthy(s: string)
  {
    s != "" && s != "0"
  }

  /** `t` occurs in `s` starting at position `i`. */
  predicate OccursAt(s: string, t: string, i: int)
  {
    0 <= i && i + |t| <= |s| && s[i..i + |t|] == t
  }

  /** Case-sensitive substring search, scanning `s` from the left. */
  function Contains(s: string, t: string): bool
    decreases |s|
  {
    if |t| > |s| then false
    else if s[..|t|] == t then true
    else Contains(s[1..], t)
  }

  /** `Contains` finds exactly the strings that occur somewhere in `s`. */
  lemma {:induction false} ContainsIff(s: string, t: string)
    ensures Contains(s, t) <==> exists i :: OccursAt(s, t, i)
    decreases |s|
  {
    if |t| > |s| {
      assert forall i :: !OccursAt(s, t, i);
    } else if s[..|t|] == t {
      assert OccursAt(s, t, 0);
    } else {
      ContainsIff(s[1..], t);
      if Contains(s[1..], t) {
        var i :| OccursAt(s[1..], t, i);
        assert s[i + 1..i + 1 + |t|] == s[1..][i..i + |t|];
        assert OccursAt(s, t, i + 1);
      } else {
        forall i | OccursAt(s, t, i) ensures false {
          assert i != 0;
          assert s[1..][i - 1..i - 1 + |t|] == s[i..i + |t|];
          assert OccursAt(s[1..], t, i - 1);
        }
      }
    }
  }

  /**
   * The needle occurs in `s`, ignoring case. For a needle other than "" and "0",
   * such as " asc" and " desc", this is exactly when `stristr($s, $needle)` is
   * truthy: `stristr` returns the rest of `s` from the match, which begins
   * with the needle and so can be the falsy "" or "0" only for those two needles.
   */
  predicate ContainsIgnoringCase(s: string, needle: string)
  {
    Contains(Lower(s), Lower(needle))
  }

  /**
   * The one-string form of `sort` passes a fragment through as-is when it
   * mentions a direction: " asc" or " desc" in any case.
   */
  predicate HasDirection(s: string)
  {
    ContainsIgnoringCase(s, " asc") || ContainsIgnoringCase(s, " desc")
  }

  /** `in_array(strtolower($dir), ['desc', 'asc'])`. */
  predicate IsDirection(dir: string)
  {
    Lower(dir) == "asc" || Lower(dir) == "desc"
  }

  /** Two strings that lower-case alike are both directions or both not. */
  lemma DirectionIgnoresCase(a: string, b: string)
    requires Lower(a) == Lower(b)
    ensures IsDirection(a) <==> IsDirection(b)
    ensures IsDirection(a) <==> IsDirection(Lower(a))
  {
    LowerIdempotent(a);
  }

  /** A column followed by " DESC" or " ASC", in any case, is read as a raw fragment. */
  lemma {:induction false} SuffixedColumnHasDirection(col: string, dir: string)
    requires IsDirection(dir)
    ensures HasDirection(col + " " + dir)
  {
    var s := col + " " + dir;
    LowerAppend(col + " ", dir);
    LowerAppend(col, " ");
    assert Lower(" ") == " ";
    var l := Lower(s);
    assert l == Lower(col) + " " + Lower(dir);
    var needle := " " + Lower(dir);
    assert l[|col|..|col| + |needle|] == needle;
    assert OccursAt(l, needle, |col|);
    assert Lower(" asc") == " asc";
    assert Lower(" desc") == " desc";
    ContainsIff(l, needle);
  }

  /** A bare column name, which has no space, never mentions a direction. */
  lemma {:induction false} NoSpaceNoDirection(s: string)
    requires ' ' !in s
    ensures !HasDirection(s)
  {
    var l := Lower(s);
    assert ' ' !in l by {
      forall i | 0 <= i < |l| ensures l[i] != ' ' {
        assert s[i] != ' ';
      }
    }
    assert Lower(" asc") == " asc";
    assert Lower(" desc") == " desc";
    ContainsIff(l, " asc");
    ContainsIff(l, " desc");
    forall i | OccursAt(l, " asc", i) || OccursAt(l, " desc", i) ensures false { }
  }

  /** Position of the first `c` in `s`, or `|s|` when there is none. */
  function IndexOf(s: string, c: char): (i: nat)
    ensures i <= |s|
    ensures i < |s| ==> s[i] == c
    ensures forall k :: 0 <= k < i ==> s[k] != c
  {
    if s == [] then 0
    else if s[0] == c then 0
    else 1 + IndexOf(s[1..], c)
  }
}
