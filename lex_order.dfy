/**
 * Python's `<` on `str`: lexicographic comparison by code point, where a
 * proper prefix is smaller. (Dafny's own `<` on sequences means "proper
 * prefix", which is not the same order.)
 */
module LexOrder {

  import opened Wrappers

  predicate LexLess(a: string, b: string)
  {
    if |a| == 0 then |b| > 0
    else if |b| == 0 then false
    else if a[0] != b[0] then a[0] < b[0]
    else LexLess(a[1..], b[1..])
  }

  predicate LexLe(a: string, b: string)
  {
    a == b || LexLess(a, b)
  }

  lemma {:induction false} LexLessIrreflexive(a: string)
    ensures !LexLess(a, a)
  {
    if |a| > 0 {
      LexLessIrreflexive(a[1..]);
    }
  }

  lemma {:induction false} LexLessTransitive(a: string, b: string, c: string)
    requires LexLess(a, b) && LexLess(b, c)
    ensures LexLess(a, c)
  {
    if |a| > 0 && a[0] == b[0] && b[0] == c[0] {
      LexLessTransitive(a[1..], b[1..], c[1..]);
    }
  }

  /** Any two distinct strings are ordered one way or the other. */
  lemma {:induction false} LexLessTotal(a: string, b: string)
    requires a != b
    ensures LexLess(a, b) || LexLess(b, a)
  {
    if |a| > 0 && |b| > 0 && a[0] == b[0] {
      assert a == [a[0]] + a[1..] && b == [b[0]] + b[1..];
      LexLessTotal(a[1..], b[1..]);
    }
  }

  lemma LexLessAsymmetric(a: string, b: string)
    requires LexLess(a, b)
    ensures !LexLess(b, a)
  {
    if LexLess(b, a) {
      LexLessTransitive(a, b, a);
      LexLessIrreflexive(a);
    }
  }

  lemma LexLeTransitive(a: string, b: string, c: string)
    requires LexLe(a, b) && LexLe(b, c)
    ensures LexLe(a, c)
  {
    if a != b && b != c {
      LexLessTransitive(a, b, c);
    }
  }

  /** `min(ids)` restricted to the ids that satisfy `keep`; None when none does. */
  function LexMin(ids: seq<string>, keep: string -> bool): (r: Option<string>)
    ensures r.None? <==> forall i :: 0 <= i < |ids| ==> !keep(ids[i])
    ensures r.Some? ==> r.value in ids && keep(r.value)
  {
    if |ids| == 0 then None
    else
      var rest := LexMin(ids[1..], keep);
      if !keep(ids[0]) then rest
      else if rest.None? || LexLess(ids[0], rest.value) then Some(ids[0])
      else rest
  }

  /** The id `LexMin` picks precedes or equals every kept id. */
  lemma {:induction false} LexMinIsLeast(ids: seq<string>, keep: string -> bool)
    ensures var r := LexMin(ids, keep);
      r.Some? ==> forall i :: 0 <= i < |ids| && keep(ids[i]) ==> LexLe(r.value, ids[i])
  {
    if |ids| > 0 {
      LexMinIsLeast(ids[1..], keep);
      var rest := LexMin(ids[1..], keep);
      var r := LexMin(ids, keep);
      if keep(ids[0]) && rest.Some? {
        forall i | 0 <= i < |ids| && keep(ids[i])
          ensures LexLe(r.value, ids[i])
        {
          if i == 0 {
            if r.value != ids[0] {
              LexLessTotal(ids[0], rest.value);
            }
          } else {
            assert ids[i] == ids[1..][i - 1];
            if r.value == ids[0] {
              LexLeTransitive(ids[0], rest.value, ids[i]);
            }
          }
        }
      } else if rest.Some? {
        forall i | 0 <= i < |ids| && keep(ids[i])
          ensures LexLe(r.value, ids[i])
        {
          assert i > 0;
          assert ids[i] == ids[1..][i - 1];
        }
      }
    }
  }
}
