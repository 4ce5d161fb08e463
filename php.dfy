/** The parts of PHP's runtime that the printer leans on: `empty()` on strings,
    `str_replace` with a one-character needle, `join`, and PHP's value kinds. */
module Php {

  /** `empty($s)` for a string: true for "" and, a PHP quirk, also for "0". */
  predicate IsEmptyPHP(s: string) {
    s == "" || s == "0"
  }

  /** `str_replace($c, $rep, $s)` where the search string is the single character `c`. */
  function ReplaceChar(s: string, c: char, rep: string): string
    decreases |s|
  {
    if s == [] then []
    else (if s[0] == c then rep else [s[0]]) + ReplaceChar(s[1..], c, rep)
  }

  /** Replacement works character by character: it distributes over concatenation. */
  lemma {:induction false} ReplaceCharConcat(a: string, b: string, c: char, rep: string)
    ensures ReplaceChar(a + b, c, rep) == ReplaceChar(a, c, rep) + ReplaceChar(b, c, rep)
    decreases |a|
  {
    if a == [] {
      assert a + b == b;
    } else {
      assert (a + b)[0] == a[0];
      assert (a + b)[1..] == a[1..] + b;
      ReplaceCharConcat(a[1..], b, c, rep);
    }
  }

  /** On one character, replacement is `rep` for `c` and the character itself otherwise. */
  lemma ReplaceCharSingle(x: char, c: char, rep: string)
    ensures ReplaceChar([x], c, rep) == if x == c then rep else [x]
  {
    assert [x][1..] == [];
  }

  /** A string without `c` is left as it is. */
  lemma {:induction false} ReplaceCharAbsent(s: string, c: char, rep: string)
    requires c !in s
    ensures ReplaceChar(s, c, rep) == s
    decreases |s|
  {
    if s != [] {
      assert c !in s[1..] by {
        forall i | 0 <= i < |s[1..]| ensures s[1..][i] != c {
          assert s[1..][i] == s[i + 1];
        }
      }
      ReplaceCharAbsent(s[1..], c, rep);
      assert s == [s[0]] + s[1..];
    }
  }

  /** When `rep` does not contain `c`, no `c` survives the replacement. */
  lemma {:induction false} ReplaceCharRemoves(s: string, c: char, rep: string)
    requires c !in rep
    ensures c !in ReplaceChar(s, c, rep)
    decreases |s|
  {
    if s != [] {
      ReplaceCharRemoves(s[1..], c, rep);
    }
  }

  /** Each occurrence of `c` grows the string by `|rep| - 1` characters. */
  lemma {:induction false} ReplaceCharLength(s: string, c: char, rep: string)
    ensures |ReplaceChar(s, c, rep)| == |s| + multiset(s)[c] * (|rep| - 1)
    decreases |s|
  {
    if s != [] {
      ReplaceCharLength(s[1..], c, rep);
      assert s == [s[0]] + s[1..];
      assert multiset(s) == multiset([s[0]]) + multiset(s[1..]);
    }
  }

  /** Every `c` in `r` is immediately followed by a `d`. */
  predicate EachFollowedBy(r: string, c: char, d: char) {
    forall i :: 0 <= i < |r| && r[i] == c ==> i + 1 < |r| && r[i + 1] == d
  }

  /** Replacing `c` by the two characters `c d` leaves every `c` followed by a `d`. */
  lemma {:induction false} ReplaceCharFollowed(s: string, c: char, d: char)
    requires c != d
    ensures EachFollowedBy(ReplaceChar(s, c, [c, d]), c, d)
    decreases |s|
  {
    if s != [] {
      ReplaceCharFollowed(s[1..], c, d);
      var head := if s[0] == c then [c, d] else [s[0]];
      var rest := ReplaceChar(s[1..], c, [c, d]);
      var r := ReplaceChar(s, c, [c, d]);
      assert r == head + rest;
      forall i | 0 <= i < |r| && r[i] == c
        ensures i + 1 < |r| && r[i + 1] == d
      {
        if i >= |head| {
          var j := i - |head|;
          assert rest[j] == r[i] == c;
          assert j + 1 < |rest| && rest[j + 1] == d;
          assert r[i + 1] == rest[j + 1];
        }
      }
    }
  }

  /** `join($sep, $xs)`: the elements in order, with `sep` between neighbours. */
  function Join(sep: string, xs: seq<string>): string
    decreases |xs|
  {
    if |xs| == 0 then ""
    else if |xs| == 1 then xs[0]
    else xs[0] + sep + Join(sep, xs[1..])
  }

  /** An element appended to a non-empty sequence comes out last, after one separator. */
  lemma {:induction false} JoinSnoc(sep: string, xs: seq<string>, x: string)
    requires xs != []
    ensures Join(sep, xs + [x]) == Join(sep, xs) + sep + x
    decreases |xs|
  {
    if |xs| == 1 {
      assert (xs + [x])[1..] == [x];
    } else {
      assert (xs + [x])[1..] == xs[1..] + [x];
      JoinSnoc(sep, xs[1..], x);
    }
  }

  /** A join of a non-empty sequence starts with its first element. */
  lemma JoinStartsWithFirst(sep: string, xs: seq<string>)
    requires xs != []
    ensures |xs[0]| <= |Join(sep, xs)| && Join(sep, xs)[..|xs[0]|] == xs[0]
  {
    if |xs| > 1 {
      assert Join(sep, xs) == xs[0] + (sep + Join(sep, xs[1..]));
    }
  }

  /** The scalar kinds of PHP other than bool (`is_scalar` minus `is_bool`). */
  datatype Scalar = IntScalar(i: int) | FloatScalar(f: real) | StringScalar(s: string)

  /** A PHP value as seen by the printer: null, a bool, another scalar, or anything
      else (array, object, resource). */
  datatype PhpValue = NullValue | BoolValue(b: bool) | ScalarValue(scalar: Scalar) | CompoundValue
}
