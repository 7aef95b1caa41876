/** The ordering of the recipe list: recipes the server calls feasible
    first, undetermined ones next, infeasible ones last, and the input order
    kept within each tier.  The client clones the snapshot's array and calls
    the built-in array sort with a priority-difference comparator; the
    language standard requires that sort to be stable (section 23.1.3.30 of
    ECMA-262, 2023 edition), so its result is the unique stable ordering,
    which this module computes with an insertion sort and characterises by
    three tier filters. */
module FeasibilitySort {
  import opened RecipeTypes

  /** The sort key: 1 for `true`, 2 for `null`, 3 for `false`. */
  function Priority(p: Possible): (r: int)
    ensures 1 <= r <= 3
    ensures (r == 1) == (p == Feasible) && (r == 3) == (p == Infeasible)
  {
    match p
    case Feasible => 1
    case Undetermined => 2
    case Infeasible => 3
  }

  /** The comparator handed to the array sort: negative when `a` belongs before `b`. */
  function Compare(a: UserRecipe, b: UserRecipe): (c: int)
    ensures c < 0 <==> Priority(a.possible) < Priority(b.possible)
    ensures c == 0 <==> a.possible == b.possible
  {
    Priority(a.possible) - Priority(b.possible)
  }

  /** The comparator is antisymmetric and transitive, the consistency the
      standard asks of a comparator before it promises a sorted result. */
  lemma CompareConsistent(a: UserRecipe, b: UserRecipe, c: UserRecipe)
    ensures Compare(a, b) == -Compare(b, a)
    ensures Compare(a, b) <= 0 && Compare(b, c) <= 0 ==> Compare(a, c) <= 0
  {
  }

  /** Every recipe is in a tier no later than the ones after it. */
  ghost predicate Ordered(s: seq<UserRecipe>)
  {
    forall i, j :: 0 <= i < j < |s| ==> Priority(s[i].possible) <= Priority(s[j].possible)
  }

  /** The recipes of `s` whose verdict is `p`, in the order of `s`. */
  function Tier(p: Possible, s: seq<UserRecipe>): seq<UserRecipe>
  {
    if s == [] then []
    else (if s[0].possible == p then [s[0]] else []) + Tier(p, s[1..])
  }

  /** A tier holds recipes of `s` only, each of them with verdict `p`, and
      every recipe of `s` with verdict `p`. */
  lemma {:induction false} TierIsFilter(p: Possible, s: seq<UserRecipe>)
    ensures multiset(Tier(p, s)) <= multiset(s)
    ensures forall x :: x in Tier(p, s) ==> x.possible == p
    ensures forall x :: x in s && x.possible == p ==> x in Tier(p, s)
  {
    if s != [] {
      TierIsFilter(p, s[1..]);
      assert s == [s[0]] + s[1..];
    }
  }

  /** The reference ordering: the three tiers one after the other. */
  function ByTier(s: seq<UserRecipe>): seq<UserRecipe>
  {
    Tier(Feasible, s) + Tier(Undetermined, s) + Tier(Infeasible, s)
  }

  /** Places `x`, which came before every element of `s` in the input, in
      front of the first element that does not sort strictly before it. */
  function Insert(x: UserRecipe, s: seq<UserRecipe>): seq<UserRecipe>
  {
    if s == [] || Compare(x, s[0]) <= 0 then [x] + s
    else [s[0]] + Insert(x, s[1..])
  }

  /** The stable sort of the recipe list by the comparator. */
  function Sort(s: seq<UserRecipe>): seq<UserRecipe>
  {
    if s == [] then [] else Insert(s[0], Sort(s[1..]))
  }

  /** `sortedRecipes`: nothing without a snapshot, else the sorted recipes. */
  function SortedRecipes(step: Option<ConnectionStep>): (r: seq<UserRecipe>)
    ensures step.None? ==> r == []
    ensures step.Some? && step.value.recipes == [] ==> r == []
    ensures step.Some? ==> Ordered(r) && multiset(r) == multiset(step.value.recipes)
    ensures step.Some? ==> r == ByTier(step.value.recipes)
  {
    if step.None? then []
    else
      SortIsByTier(step.value.recipes);
      SortOrdered(step.value.recipes);
      SortPermutation(step.value.recipes);
      Sort(step.value.recipes)
  }

  lemma {:induction false} InsertPermutation(x: UserRecipe, s: seq<UserRecipe>)
    ensures multiset(Insert(x, s)) == multiset{x} + multiset(s)
  {
    if s != [] && Compare(x, s[0]) > 0 {
      InsertPermutation(x, s[1..]);
      assert s == [s[0]] + s[1..];
    }
  }

  /** The sorted list is a permutation of the snapshot's recipes. */
  lemma {:induction false} SortPermutation(s: seq<UserRecipe>)
    ensures multiset(Sort(s)) == multiset(s)
  {
    if s != [] {
      SortPermutation(s[1..]);
      InsertPermutation(s[0], Sort(s[1..]));
      assert s == [s[0]] + s[1..];
    }
  }

  lemma {:induction false} InsertHead(x: UserRecipe, s: seq<UserRecipe>)
    ensures |Insert(x, s)| == |s| + 1
    ensures Insert(x, s)[0] == x || (s != [] && Insert(x, s)[0] == s[0])
  {
    if s != [] && Compare(x, s[0]) > 0 {
      InsertHead(x, s[1..]);
    }
  }

  lemma {:induction false} InsertOrdered(x: UserRecipe, s: seq<UserRecipe>)
    requires Ordered(s)
    ensures Ordered(Insert(x, s))
  {
    if s != [] && Compare(x, s[0]) > 0 {
      InsertOrdered(x, s[1..]);
      InsertHead(x, s[1..]);
      var t := Insert(x, s);
      forall i, j | 0 <= i < j < |t|
        ensures Priority(t[i].possible) <= Priority(t[j].possible)
      {
        if i == 0 {
          InsertMember(x, s[1..], j - 1);
        }
      }
    }
  }

  /** Every element of `Insert(x, s)` is `x` or an element of `s`. */
  lemma {:induction false} InsertMember(x: UserRecipe, s: seq<UserRecipe>, k: nat)
    requires k < |s| + 1
    ensures |Insert(x, s)| == |s| + 1
    ensures Insert(x, s)[k] == x || exists i :: 0 <= i < |s| && Insert(x, s)[k] == s[i]
  {
    InsertHead(x, s);
    if s != [] && Compare(x, s[0]) > 0 && k > 0 {
      InsertMember(x, s[1..], k - 1);
      if Insert(x, s)[k] != x {
        var i :| 0 <= i < |s[1..]| && Insert(x, s[1..])[k - 1] == s[1..][i];
        assert Insert(x, s)[k] == s[i + 1];
      }
    }
  }

  /** The sorted list is tier-ordered. */
  lemma {:induction false} SortOrdered(s: seq<UserRecipe>)
    ensures Ordered(Sort(s))
  {
    if s != [] {
      SortOrdered(s[1..]);
      InsertOrdered(s[0], Sort(s[1..]));
    }
  }

  lemma {:induction false} TierAppend(p: Possible, a: seq<UserRecipe>, b: seq<UserRecipe>)
    ensures Tier(p, a + b) == Tier(p, a) + Tier(p, b)
  {
    if a == [] {
      assert a + b == b;
    } else {
      TierAppend(p, a[1..], b);
      assert (a + b)[0] == a[0];
      assert (a + b)[1..] == a[1..] + b;
      var head := if a[0].possible == p then [a[0]] else [];
      calc {
        Tier(p, a + b);
        head + Tier(p, a[1..] + b);
        head + (Tier(p, a[1..]) + Tier(p, b));
        (head + Tier(p, a[1..])) + Tier(p, b);
      }
    }
  }

  /** Inserting `x` puts it in front of its own tier and leaves the other tiers alone. */
  lemma {:induction false} InsertTier(p: Possible, x: UserRecipe, s: seq<UserRecipe>)
    ensures Tier(p, Insert(x, s)) == (if x.possible == p then [x] else []) + Tier(p, s)
  {
    if s == [] || Compare(x, s[0]) <= 0 {
      TierAppend(p, [x], s);
    } else {
      InsertTier(p, x, s[1..]);
      TierAppend(p, [s[0]], Insert(x, s[1..]));
      TierAppend(p, [s[0]], s[1..]);
      assert s == [s[0]] + s[1..];
    }
  }

  /** Stability: within each tier the sorted list keeps the input order. */
  lemma {:induction false} SortStable(p: Possible, s: seq<UserRecipe>)
    ensures Tier(p, Sort(s)) == Tier(p, s)
  {
    if s != [] {
      SortStable(p, s[1..]);
      InsertTier(p, s[0], Sort(s[1..]));
    }
  }

  lemma {:induction false} TierEmpty(p: Possible, s: seq<UserRecipe>)
    requires forall i :: 0 <= i < |s| ==> s[i].possible != p
    ensures Tier(p, s) == []
  {
    if s != [] {
      TierEmpty(p, s[1..]);
    }
  }

  /** A tier-ordered list is already the concatenation of its tiers. */
  lemma {:induction false} OrderedIsByTier(s: seq<UserRecipe>)
    requires Ordered(s)
    ensures s == ByTier(s)
  {
    if s != [] {
      var rest := s[1..];
      OrderedIsByTier(rest);
      var first := Priority(s[0].possible);
      if first >= 2 {
        TierEmpty(Feasible, rest);
      }
      if first == 3 {
        TierEmpty(Undetermined, rest);
      }
      assert s == [s[0]] + rest;
      var f, u, i := Tier(Feasible, rest), Tier(Undetermined, rest), Tier(Infeasible, rest);
      assert rest == f + u + i;
      if first == 1 {
        assert ByTier(s) == ([s[0]] + f) + u + i;
      } else if first == 2 {
        assert ByTier(s) == f + ([s[0]] + u) + i;
      } else {
        assert ByTier(s) == f + u + ([s[0]] + i);
      }
    }
  }

  /** The insertion sort agrees with the reference ordering. */
  lemma SortIsByTier(s: seq<UserRecipe>)
    ensures Sort(s) == ByTier(s)
  {
    SortOrdered(s);
    OrderedIsByTier(Sort(s));
    SortStable(Feasible, s);
    SortStable(Undetermined, s);
    SortStable(Infeasible, s);
  }

  /** Sorting a sorted list changes nothing. */
  lemma SortIdempotent(s: seq<UserRecipe>)
    ensures Sort(Sort(s)) == Sort(s)
  {
    SortIsByTier(Sort(s));
    SortStable(Feasible, s);
    SortStable(Undetermined, s);
    SortStable(Infeasible, s);
    SortIsByTier(s);
  }

  /** A list that is already tier-ordered comes back unchanged. */
  lemma SortOfOrdered(s: seq<UserRecipe>)
    requires Ordered(s)
    ensures Sort(s) == s
  {
    SortIsByTier(s);
    OrderedIsByTier(s);
  }

  /** Any stable sort gives the same list: a tier-ordered list with the same
      tiers as the input is the result of Sort.  This is why one stable
      algorithm stands for the engine's built-in one. */
  lemma StableSortUnique(s: seq<UserRecipe>, t: seq<UserRecipe>)
    requires Ordered(t)
    requires Tier(Feasible, t) == Tier(Feasible, s)
    requires Tier(Undetermined, t) == Tier(Undetermined, s)
    requires Tier(Infeasible, t) == Tier(Infeasible, s)
    ensures t == Sort(s)
  {
    OrderedIsByTier(t);
    SortIsByTier(s);
  }
}
