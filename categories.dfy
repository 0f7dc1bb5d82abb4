/** The closed enumeration of expense categories shared by the frontend and
    the backend, and sums of a per-category map over a list of keys. */
module Categories {

  /** `ExpenseCategory`: the eight labels an expense can carry. */
  datatype Category = HOUSING | FOOD | TRANSPORT | HEALTH | PERSONAL | LOAN | ENTERTAINMENT | OTHER

  /** Key order of the frontend's totals record literal, which is the order
      `Object.entries` visits its entries. */
  const KeyOrder: seq<Category> := [HOUSING, FOOD, TRANSPORT, HEALTH, PERSONAL, LOAN, ENTERTAINMENT, OTHER]

  /** Position of a category in KeyOrder. */
  function Rank(c: Category): (r: nat)
    ensures r < |KeyOrder| && KeyOrder[r] == c
  {
    match c
    case HOUSING => 0
    case FOOD => 1
    case TRANSPORT => 2
    case HEALTH => 3
    case PERSONAL => 4
    case LOAN => 5
    case ENTERTAINMENT => 6
    case OTHER => 7
  }

  /** KeyOrder lists each category once, at the position Rank gives it. */
  lemma KeyOrderRanks()
    ensures forall i :: 0 <= i < |KeyOrder| ==> Rank(KeyOrder[i]) == i
    ensures forall c: Category :: c in KeyOrder
  {
    forall i | 0 <= i < |KeyOrder| ensures Rank(KeyOrder[i]) == i {
      assert i == 0 || i == 1 || i == 2 || i == 3 || i == 4 || i == 5 || i == 6 || i == 7;
    }
    forall c: Category ensures c in KeyOrder {
      assert KeyOrder[Rank(c)] == c;
    }
  }

  ghost predicate Distinct(ks: seq<Category>)
  {
    forall i, j :: 0 <= i < j < |ks| ==> ks[i] != ks[j]
  }

  /** `ks` lists every category exactly once, in some order, as
      `ExpenseCategory.values()` does. */
  ghost predicate IsEnumeration(ks: seq<Category>)
  {
    Distinct(ks) && forall c: Category :: c in ks
  }

  lemma KeyOrderIsEnumeration()
    ensures IsEnumeration(KeyOrder)
  {
    KeyOrderRanks();
  }

  /** Sum of the entries of `m` at the keys `ks`. */
  function TotalOver(ks: seq<Category>, m: map<Category, real>): real
    requires forall k :: k in ks ==> k in m
  {
    if ks == [] then 0.0 else m[ks[0]] + TotalOver(ks[1..], m)
  }

  /** Raising one entry by `a` raises the sum over distinct keys by `a` when
      that key is among them, and leaves it alone otherwise. */
  lemma {:induction false} TotalOverBump(ks: seq<Category>, m: map<Category, real>, k: Category, a: real)
    requires Distinct(ks)
    requires forall j :: j in ks ==> j in m
    requires k in m
    ensures TotalOver(ks, m[k := m[k] + a]) == TotalOver(ks, m) + (if k in ks then a else 0.0)
  {
    if ks != [] {
      var tail := ks[1..];
      assert Distinct(tail) by {
        forall i, j | 0 <= i < j < |tail| ensures tail[i] != tail[j] {
          assert tail[i] == ks[i + 1] && tail[j] == ks[j + 1];
        }
      }
      if ks[0] == k {
        forall i | 0 <= i < |tail| ensures tail[i] != k {
          assert tail[i] == ks[i + 1];
        }
      }
      TotalOverBump(tail, m, k, a);
    }
  }

  /** A map whose entries at `ks` are all zero sums to zero over `ks`. */
  lemma {:induction false} TotalOverZero(ks: seq<Category>, m: map<Category, real>)
    requires forall j :: j in ks ==> j in m && m[j] == 0.0
    ensures TotalOver(ks, m) == 0.0
  {
    if ks != [] {
      TotalOverZero(ks[1..], m);
    }
  }
}
