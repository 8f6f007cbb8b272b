/**
  Chains and groups read as series/parallel expressions: which jobs have to be done before
  which, and when the flattened graph says the same.
 */
module SeriesParallel {
  import opened Delayables

  /** The delayables that jobs are made of. */
  function Units(d: Delayable): set<Delayable> {
    if d.Single? then {d}
    else set i, x | 0 <= i < |d.members| && x in Units(d.members[i]) :: x
  }

  /** The order that the expression asks for: in a chain, each member is done before the later ones. */
  ghost predicate Precedes(d: Delayable, x: Delayable, y: Delayable) {
    !d.Single? &&
    exists i | 0 <= i < |d.members| ::
      || Precedes(d.members[i], x, y)
      || (d.Chain? && x in Units(d.members[i]) && UnitAfter(d, i, y))
  }

  ghost predicate UnitAfter(d: Delayable, i: int, y: Delayable)
    requires !d.Single?
  {
    exists k | i < k < |d.members| && 0 <= k :: y in Units(d.members[k])
  }

  /** The edges of the flattened graph: from the tails of a member to the heads of the next one. */
  ghost predicate FlatEdge(d: Delayable, x: Delayable, y: Delayable) {
    !d.Single? &&
    exists i | 0 <= i < |d.members| ::
      || FlatEdge(d.members[i], x, y)
      || Junction(d, i, x, y)
  }

  ghost predicate Junction(d: Delayable, i: int, x: Delayable, y: Delayable) {
    d.Chain? && 0 <= i < |d.members| - 1 && x in Tail(d.members[i]) && y in Head(d.members[i + 1])
  }

  /** No delayable occurs twice. */
  ghost predicate Distinct(d: Delayable) {
    d.Single? ||
    (&& (forall i | 0 <= i < |d.members| :: Distinct(d.members[i]))
     && (forall i, k | 0 <= i < k < |d.members| :: Units(d.members[i]) !! Units(d.members[k])))
  }

  /** Nothing in `d` becomes a job. */
  predicate Void(d: Delayable) {
    Units(d) == {}
  }

  // ---------- members ----------

  lemma MemberUnits(d: Delayable, i: nat)
    requires !d.Single? && i < |d.members|
    ensures Units(d.members[i]) <= Units(d)
  {
  }

  /** The member that has the delayable `x`. */
  ghost function MemberOf(d: Delayable, x: Delayable): (i: nat)
    requires !d.Single? && x in Units(d)
    ensures i < |d.members| && x in Units(d.members[i])
  {
    var i :| 0 <= i < |d.members| && x in Units(d.members[i]);
    i
  }

  lemma SameMember(d: Delayable, i: nat, k: nat, x: Delayable)
    requires !d.Single? && Distinct(d) && i < |d.members| && k < |d.members|
    requires x in Units(d.members[i]) && x in Units(d.members[k])
    ensures i == k
  {
  }

  lemma {:induction false} EndsAreUnits(d: Delayable)
    ensures Head(d) <= Units(d) && Tail(d) <= Units(d)
    decreases d
  {
    if !d.Single? {
      forall i | 0 <= i < |d.members| ensures Head(d.members[i]) <= Units(d) && Tail(d.members[i]) <= Units(d) {
        EndsAreUnits(d.members[i]);
        MemberUnits(d, i);
      }
    }
  }

  // ---------- the flattened graph never asks for more ----------

  lemma {:induction false} EdgeIsOrder(d: Delayable, x: Delayable, y: Delayable)
    requires FlatEdge(d, x, y)
    ensures Precedes(d, x, y)
    decreases d
  {
    var i :| 0 <= i < |d.members| && (FlatEdge(d.members[i], x, y) || Junction(d, i, x, y));
    if FlatEdge(d.members[i], x, y) {
      EdgeIsOrder(d.members[i], x, y);
    } else {
      EndsAreUnits(d.members[i]);
      EndsAreUnits(d.members[i + 1]);
      assert UnitAfter(d, i, y);
    }
  }

  lemma {:induction false} OrderIsOfUnits(d: Delayable, x: Delayable, y: Delayable)
    requires Precedes(d, x, y)
    ensures x in Units(d) && y in Units(d)
    decreases d
  {
    var i :| 0 <= i < |d.members| &&
      (Precedes(d.members[i], x, y) || (d.Chain? && x in Units(d.members[i]) && UnitAfter(d, i, y)));
    MemberUnits(d, i);
    if Precedes(d.members[i], x, y) {
      OrderIsOfUnits(d.members[i], x, y);
    } else {
      var k :| i < k < |d.members| && y in Units(d.members[k]);
      MemberUnits(d, k);
    }
  }

  /** Where the order of a chain or group comes from. */
  lemma OrderCases(d: Delayable, x: Delayable, y: Delayable, i: nat, k: nat)
    requires !d.Single? && Distinct(d) && i < |d.members| && k < |d.members|
    requires x in Units(d.members[i]) && y in Units(d.members[k])
    ensures Precedes(d, x, y) <==> (i == k && Precedes(d.members[i], x, y)) || (d.Chain? && i < k)
  {
    if Precedes(d, x, y) {
      var j :| 0 <= j < |d.members| &&
        (Precedes(d.members[j], x, y) || (d.Chain? && x in Units(d.members[j]) && UnitAfter(d, j, y)));
      if Precedes(d.members[j], x, y) {
        OrderIsOfUnits(d.members[j], x, y);
        SameMember(d, i, j, x);
        SameMember(d, k, j, y);
      } else {
        SameMember(d, i, j, x);
        var l :| j < l < |d.members| && y in Units(d.members[l]);
        SameMember(d, k, l, y);
      }
    }
    if d.Chain? && i < k {
      assert UnitAfter(d, i, y);
    }
  }

  lemma {:induction false} OrderIsTransitive(d: Delayable, x: Delayable, y: Delayable, z: Delayable)
    requires Distinct(d) && Precedes(d, x, y) && Precedes(d, y, z)
    ensures Precedes(d, x, z)
    decreases d
  {
    OrderIsOfUnits(d, x, y);
    OrderIsOfUnits(d, y, z);
    var i, k, l := MemberOf(d, x), MemberOf(d, y), MemberOf(d, z);
    OrderCases(d, x, y, i, k);
    OrderCases(d, y, z, k, l);
    OrderCases(d, x, z, i, l);
    if i == k == l {
      OrderIsTransitive(d.members[i], x, y, z);
    }
  }

  lemma {:induction false} OrderIsStrict(d: Delayable, x: Delayable)
    requires Distinct(d)
    ensures !Precedes(d, x, x)
    decreases d
  {
    if Precedes(d, x, x) {
      OrderIsOfUnits(d, x, x);
      var i := MemberOf(d, x);
      OrderCases(d, x, x, i, i);
      OrderIsStrict(d.members[i], x);
    }
  }

  /** `n` edges of the flattened graph lead from `x` to `y`. */
  ghost predicate Leads(d: Delayable, x: Delayable, y: Delayable, n: nat)
    decreases n, 1
  {
    if n == 0 then x == y && x in Units(d)
    else exists z {:trigger LeadsBy(d, x, z, y, n)} | z in Units(d) :: LeadsBy(d, x, z, y, n)
  }

  ghost predicate LeadsBy(d: Delayable, x: Delayable, z: Delayable, y: Delayable, n: nat)
    requires n > 0
    decreases n, 0
  {
    FlatEdge(d, x, z) && Leads(d, z, y, n - 1)
  }

  lemma FirstEdge(d: Delayable, x: Delayable, y: Delayable, n: nat) returns (z: Delayable)
    requires n > 0 && Leads(d, x, y, n)
    ensures z in Units(d) && FlatEdge(d, x, z) && Leads(d, z, y, n - 1)
  {
    z :| z in Units(d) && LeadsBy(d, x, z, y, n);
  }

  lemma AddEdge(d: Delayable, x: Delayable, z: Delayable, y: Delayable, n: nat)
    requires FlatEdge(d, x, z) && Leads(d, z, y, n)
    ensures Leads(d, x, y, n + 1)
  {
    EdgeIsOfUnits(d, x, z);
    assert LeadsBy(d, x, z, y, n + 1);
  }

  lemma EdgeIsOfUnits(d: Delayable, x: Delayable, y: Delayable)
    requires FlatEdge(d, x, y)
    ensures x in Units(d) && y in Units(d)
  {
    EdgeIsOrder(d, x, y);
    OrderIsOfUnits(d, x, y);
  }

  /** The transitive closure of the flattened graph. */
  ghost predicate Follows(d: Delayable, x: Delayable, y: Delayable) {
    exists n: nat :: n > 0 && Leads(d, x, y, n)
  }

  lemma {:induction false} LeadsIsOrder(d: Delayable, x: Delayable, y: Delayable, n: nat)
    requires Distinct(d) && n > 0 && Leads(d, x, y, n)
    ensures Precedes(d, x, y)
    decreases n
  {
    var z := FirstEdge(d, x, y, n);
    EdgeIsOrder(d, x, z);
    if n > 1 {
      LeadsIsOrder(d, z, y, n - 1);
      OrderIsTransitive(d, x, z, y);
    }
  }

  /** What comes after a job in the flattened graph comes after it in the expression. */
  lemma FlatteningIsSound(d: Delayable, x: Delayable, y: Delayable)
    requires Distinct(d) && Follows(d, x, y)
    ensures Precedes(d, x, y) && x != y
  {
    var n: nat :| n > 0 && Leads(d, x, y, n);
    LeadsIsOrder(d, x, y, n);
    OrderIsStrict(d, x);
  }

  // ---------- walks through the flattened graph ----------

  lemma {:induction false} LeadsJoin(d: Delayable, x: Delayable, y: Delayable, z: Delayable, n: nat, m: nat)
    requires Leads(d, x, y, n) && Leads(d, y, z, m)
    ensures Leads(d, x, z, n + m)
    decreases n
  {
    if n > 0 {
      var w := FirstEdge(d, x, y, n);
      LeadsJoin(d, w, y, z, n - 1, m);
      AddEdge(d, x, w, z, n - 1 + m);
    }
  }

  lemma OneEdge(d: Delayable, x: Delayable, y: Delayable)
    requires FlatEdge(d, x, y)
    ensures Leads(d, x, y, 1)
  {
    EdgeIsOfUnits(d, x, y);
    AddEdge(d, x, y, y, 0);
  }

  /** An edge stays in a member, or leads on from a tail to a head. */
  lemma EdgeCases(d: Delayable, x: Delayable, y: Delayable, i: nat, k: nat)
    requires !d.Single? && Distinct(d) && i < |d.members| && k < |d.members|
    requires x in Units(d.members[i]) && y in Units(d.members[k]) && FlatEdge(d, x, y)
    ensures || (k == i && FlatEdge(d.members[i], x, y))
            || (k == i + 1 && d.Chain? && x in Tail(d.members[i]) && y in Head(d.members[k]))
  {
    var j :| 0 <= j < |d.members| && (FlatEdge(d.members[j], x, y) || Junction(d, j, x, y));
    if FlatEdge(d.members[j], x, y) {
      EdgeIsOfUnits(d.members[j], x, y);
      SameMember(d, i, j, x);
      SameMember(d, k, j, y);
    } else {
      EndsAreUnits(d.members[j]);
      EndsAreUnits(d.members[j + 1]);
      SameMember(d, i, j, x);
      SameMember(d, k, j + 1, y);
    }
  }

  lemma {:induction false} LeadsLifts(d: Delayable, i: nat, x: Delayable, y: Delayable, n: nat)
    requires !d.Single? && i < |d.members| && Leads(d.members[i], x, y, n)
    ensures Leads(d, x, y, n)
    decreases n
  {
    MemberUnits(d, i);
    if n > 0 {
      var z := FirstEdge(d.members[i], x, y, n);
      LeadsLifts(d, i, z, y, n - 1);
      AddEdge(d, x, z, y, n - 1);
    }
  }

  /** The first edge of a walk stays in the member, or leads on from a tail to a head. */
  lemma FirstHop(d: Delayable, x: Delayable, y: Delayable, n: nat, i: nat) returns (z: Delayable, j: nat)
    requires !d.Single? && Distinct(d) && i < |d.members| && x in Units(d.members[i]) && n > 0 && Leads(d, x, y, n)
    ensures j < |d.members| && z in Units(d.members[j]) && Leads(d, z, y, n - 1)
    ensures || (j == i && FlatEdge(d.members[i], x, z))
            || (j == i + 1 && d.Chain? && x in Tail(d.members[i]) && z in Head(d.members[j]))
  {
    z := FirstEdge(d, x, y, n);
    j := MemberOf(d, z);
    EdgeCases(d, x, z, i, j);
  }

  /** Walks go forward through a chain, and stay in one member of a group. */
  lemma {:induction false} LeadsForward(d: Delayable, x: Delayable, y: Delayable, n: nat, i: nat, k: nat)
    requires !d.Single? && Distinct(d) && Leads(d, x, y, n) && i < |d.members| && k < |d.members|
    requires x in Units(d.members[i]) && y in Units(d.members[k])
    ensures i <= k && (d.Group? ==> i == k)
    decreases n
  {
    if n == 0 {
      SameMember(d, i, k, x);
    } else {
      var z, j := FirstHop(d, x, y, n, i);
      LeadsForward(d, z, y, n - 1, j, k);
    }
  }

  lemma StaysOneHop(d: Delayable, i: nat, x: Delayable, y: Delayable, n: nat) returns (z: Delayable)
    requires !d.Single? && Distinct(d) && i < |d.members| && n > 0 && Leads(d, x, y, n)
    requires x in Units(d.members[i]) && y in Units(d.members[i])
    ensures z in Units(d.members[i]) && FlatEdge(d.members[i], x, z) && Leads(d, z, y, n - 1)
  {
    var j;
    z, j := FirstHop(d, x, y, n, i);
    LeadsForward(d, z, y, n - 1, j, i);
  }

  /** A walk between two jobs of one member does not leave the member. */
  lemma {:induction false} LeadsStays(d: Delayable, i: nat, x: Delayable, y: Delayable, n: nat)
    requires !d.Single? && Distinct(d) && i < |d.members| && Leads(d, x, y, n)
    requires x in Units(d.members[i]) && y in Units(d.members[i])
    ensures Leads(d.members[i], x, y, n)
    decreases n
  {
    if n > 0 {
      var z := StaysOneHop(d, i, x, y, n);
      LeadsStays(d, i, z, y, n - 1);
      AddEdge(d.members[i], x, z, y, n - 1);
    }
  }

  /** A walk that leaves a member of a chain leaves it through a tail. */
  lemma {:induction false} LeavesByTail(d: Delayable, x: Delayable, y: Delayable, n: nat, i: nat, k: nat) returns (t: Delayable, m: nat)
    requires d.Chain? && Distinct(d) && Leads(d, x, y, n) && i < k < |d.members|
    requires x in Units(d.members[i]) && y in Units(d.members[k])
    ensures t in Tail(d.members[i]) && Leads(d.members[i], x, t, m)
    decreases n
  {
    if n == 0 {
      SameMember(d, i, k, x);
    }
    var z, j := FirstHop(d, x, y, n, i);
    if j == i {
      t, m := LeavesByTail(d, z, y, n - 1, i, k);
      AddEdge(d.members[i], x, z, t, m);
      m := m + 1;
    } else {
      t, m := x, 0;
    }
  }

  /** A walk that comes into a member of a chain comes in through a head. */
  lemma {:induction false} EntersByHead(d: Delayable, x: Delayable, y: Delayable, n: nat, i: nat, k: nat) returns (h: Delayable, m: nat)
    requires d.Chain? && Distinct(d) && Leads(d, x, y, n) && i < k < |d.members|
    requires x in Units(d.members[i]) && y in Units(d.members[k])
    ensures h in Head(d.members[k]) && Leads(d.members[k], h, y, m)
    decreases n
  {
    if n == 0 {
      SameMember(d, i, k, x);
    }
    var z, j := FirstHop(d, x, y, n, i);
    LeadsForward(d, z, y, n - 1, j, k);
    if j < k {
      h, m := EntersByHead(d, z, y, n - 1, j, k);
    } else {
      LeadsStays(d, k, z, y, n - 1);
      h, m := z, n - 1;
    }
  }

  // ---------- when nothing is lost ----------

  function End(d: Delayable, tail: bool): set<Delayable> {
    if tail then Tail(d) else Head(d)
  }

  ghost predicate Joins(d: Delayable, x: Delayable, y: Delayable) {
    exists n: nat :: Leads(d, x, y, n)
  }

  /** Every job leads to an end of `d` (`down`), or is led to from one. */
  ghost predicate Drains(d: Delayable, down: bool, tail: bool) {
    forall x | x in Units(d) :: DrainsAt(d, down, tail, x)
  }

  ghost predicate DrainsAt(d: Delayable, down: bool, tail: bool, x: Delayable) {
    exists t | t in End(d, tail) :: Toward(d, down, x, t)
  }

  ghost predicate Toward(d: Delayable, down: bool, x: Delayable, t: Delayable) {
    if down then Joins(d, x, t) else Joins(d, t, x)
  }

  /** The member of a chain that its jobs lead to (`down`), or come from. */
  function Outer(d: Delayable, down: bool): nat
    requires d.Chain? && d.members != []
  {
    if down then |d.members| - 1 else 0
  }

  /** The same, read off the expression. */
  predicate Covers(d: Delayable, down: bool, tail: bool)
    decreases d
  {
    match d
    case Single(_) => true
    case Group(_, ds) => forall i | 0 <= i < |ds| :: Covers(ds[i], down, tail)
    case Chain(_, ds) =>
      if Void(d) || ds == [] then true
      else
        && (if down == tail then !Void(ds[Outer(d, tail)]) else OnlyFull(d, Outer(d, tail)))
        && Covers(ds[Outer(d, tail)], down, !tail)
  }

  /** All members but one are void. */
  predicate OnlyFull(d: Delayable, o: nat)
    requires !d.Single?
  {
    forall i | 0 <= i < |d.members| && i != o :: Void(d.members[i])
  }

  /**
    Reads off an expression whether flattening keeps its order: of the members of a chain that are
    not void, each and the next one are neighbours, each job of the one leads to a tail of it, and
    each job of the other comes from a head of it.
   */
  predicate Faithful(d: Delayable) {
    d.Single? ||
    (&& (forall i | 0 <= i < |d.members| :: Faithful(d.members[i]))
     && (d.Chain? ==> forall i, k {:trigger InSuccession(d, i, k)} | 0 <= i < k < |d.members| && InSuccession(d, i, k) :: k == i + 1 && FaithfulAt(d, i)))
  }

  /** Members `i` and `k` are not void, and all members between them are. */
  predicate InSuccession(d: Delayable, i: int, k: int)
    requires !d.Single?
  {
    && 0 <= i < k < |d.members| && !Void(d.members[i]) && !Void(d.members[k])
    && forall j | i < j < k :: Void(d.members[j])
  }

  predicate FaithfulAt(d: Delayable, i: int)
    requires d.Chain? && 0 <= i < |d.members| - 1
  {
    Covers(d.members[i], true, true) && Covers(d.members[i + 1], false, false)
  }

  ghost predicate Complete(d: Delayable) {
    forall x, y | x in Units(d) && y in Units(d) :: Precedes(d, x, y) ==> Joins(d, x, y)
  }

  lemma CompleteMember(d: Delayable, i: nat)
    requires !d.Single? && Distinct(d) && Complete(d) && i < |d.members|
    ensures Complete(d.members[i])
  {
    var e := d.members[i];
    MemberUnits(d, i);
    forall x, y | x in Units(e) && y in Units(e) && Precedes(e, x, y) ensures Joins(e, x, y) {
      OrderCases(d, x, y, i, i);
      assert Joins(d, x, y);
      var n: nat :| Leads(d, x, y, n);
      LeadsStays(d, i, x, y, n);
    }
  }

  /** What comes after place `i` of a chain is reached from what comes before it. */
  ghost predicate Open(d: Delayable, i: int)
    requires d.Chain? && 0 <= i < |d.members| - 1
  {
    Drains(d.members[i], true, true) && Drains(d.members[i + 1], false, false)
  }

  lemma CompleteWalk(d: Delayable, i: nat, k: nat, x: Delayable, y: Delayable) returns (n: nat)
    requires d.Chain? && Distinct(d) && Complete(d) && i < k < |d.members|
    requires x in Units(d.members[i]) && y in Units(d.members[k])
    ensures Leads(d, x, y, n)
  {
    MemberUnits(d, i);
    MemberUnits(d, k);
    OrderCases(d, x, y, i, k);
    assert Joins(d, x, y);
    n :| Leads(d, x, y, n);
  }

  lemma BeforePlace(d: Delayable, i: nat, x: Delayable)
    requires d.Chain? && Distinct(d) && Complete(d) && i + 1 < |d.members| && x in Units(d.members[i])
    requires !Void(d.members[i + 1])
    ensures DrainsAt(d.members[i], true, true, x)
  {
    var y :| y in Units(d.members[i + 1]);
    var n := CompleteWalk(d, i, i + 1, x, y);
    var t, m := LeavesByTail(d, x, y, n, i, i + 1);
    assert Toward(d.members[i], true, x, t);
  }

  lemma AfterPlace(d: Delayable, i: nat, y: Delayable)
    requires d.Chain? && Distinct(d) && Complete(d) && i + 1 < |d.members| && y in Units(d.members[i + 1])
    requires !Void(d.members[i])
    ensures DrainsAt(d.members[i + 1], false, false, y)
  {
    var x :| x in Units(d.members[i]);
    var n := CompleteWalk(d, i, i + 1, x, y);
    var h, m := EntersByHead(d, x, y, n, i, i + 1);
    assert Toward(d.members[i + 1], false, y, h);
  }

  /** A walk to a later member goes through the next one. */
  lemma {:induction false} WalkMeetsNext(d: Delayable, x: Delayable, y: Delayable, n: nat, i: nat, k: nat)
    requires d.Chain? && Distinct(d) && Leads(d, x, y, n) && i < k < |d.members|
    requires x in Units(d.members[i]) && y in Units(d.members[k])
    ensures !Void(d.members[i + 1])
    decreases n
  {
    if n == 0 {
      SameMember(d, i, k, x);
    }
    var z, j := FirstHop(d, x, y, n, i);
    if j == i {
      WalkMeetsNext(d, z, y, n - 1, i, k);
    }
  }

  lemma CompleteHasNoGap(d: Delayable, i: nat, k: nat)
    requires d.Chain? && Distinct(d) && Complete(d) && InSuccession(d, i, k)
    ensures k == i + 1
  {
    var x :| x in Units(d.members[i]);
    var y :| y in Units(d.members[k]);
    var n := CompleteWalk(d, i, k, x, y);
    WalkMeetsNext(d, x, y, n, i, k);
  }

  /** If nothing is lost, no void member is in between, and every place is open. */
  lemma CompleteIsOpen(d: Delayable, i: nat, k: nat)
    requires d.Chain? && Distinct(d) && Complete(d) && InSuccession(d, i, k)
    ensures k == i + 1 && Open(d, i)
  {
    CompleteHasNoGap(d, i, k);
    var a, b := d.members[i], d.members[k];
    forall x | x in Units(a) ensures DrainsAt(a, true, true, x) {
      BeforePlace(d, i, x);
    }
    forall y | y in Units(b) ensures DrainsAt(b, false, false, y) {
      AfterPlace(d, i, y);
    }
  }

  lemma ToTail(e: Delayable, x: Delayable) returns (t: Delayable, n: nat)
    requires Drains(e, true, true) && x in Units(e)
    ensures t in Tail(e) && Leads(e, x, t, n)
  {
    assert DrainsAt(e, true, true, x);
    t :| t in Tail(e) && Toward(e, true, x, t);
    n :| Leads(e, x, t, n);
  }

  lemma FromHead(e: Delayable, y: Delayable) returns (h: Delayable, n: nat)
    requires Drains(e, false, false) && y in Units(e)
    ensures h in Head(e) && Leads(e, h, y, n)
  {
    assert DrainsAt(e, false, false, y);
    h :| h in Head(e) && Toward(e, false, y, h);
    n :| Leads(e, h, y, n);
  }

  lemma BridgeOne(d: Delayable, i: nat, x: Delayable, y: Delayable)
    requires d.Chain? && i + 1 < |d.members| && Open(d, i)
    requires x in Units(d.members[i]) && y in Units(d.members[i + 1])
    ensures Joins(d, x, y)
  {
    var t, n := ToTail(d.members[i], x);
    var h, m := FromHead(d.members[i + 1], y);
    LeadsLifts(d, i + 1, h, y, m);
    Cross(d, i, x, t, h, y, n, m);
  }

  lemma JoinsJoin(d: Delayable, x: Delayable, y: Delayable, z: Delayable)
    requires Joins(d, x, y) && Joins(d, y, z)
    ensures Joins(d, x, z)
  {
    var n: nat :| Leads(d, x, y, n);
    var m: nat :| Leads(d, y, z, m);
    LeadsJoin(d, x, y, z, n, m);
  }

  /** The members of a chain that are not void are next to each other, and the places between them are open. */
  ghost predicate AllOpen(d: Delayable)
    requires d.Chain?
  {
    forall i, k {:trigger InSuccession(d, i, k)} | InSuccession(d, i, k) :: k == i + 1 && Open(d, i)
  }

  /** The first member after `i` that is not void. */
  lemma {:induction false} NextFull(d: Delayable, i: nat, k: nat) returns (m: nat)
    requires d.Chain? && i < k < |d.members| && !Void(d.members[i]) && !Void(d.members[k])
    ensures m <= k && InSuccession(d, i, m)
    decreases k
  {
    if j: nat :| i < j < k && !Void(d.members[j]) {
      m := NextFull(d, i, j);
    } else {
      m := k;
    }
  }

  /** Then nothing is lost between the members. */
  lemma {:induction false} Bridge(d: Delayable, i: nat, k: nat, x: Delayable, y: Delayable)
    requires d.Chain? && i < k < |d.members| && AllOpen(d)
    requires x in Units(d.members[i]) && y in Units(d.members[k])
    ensures Joins(d, x, y)
    decreases k - i
  {
    var m := NextFull(d, i, k);
    if k == m {
      BridgeOne(d, i, x, y);
    } else {
      var z :| z in Units(d.members[m]);
      BridgeOne(d, i, x, z);
      Bridge(d, m, k, z, y);
      JoinsJoin(d, x, z, y);
    }
  }

  lemma Cross(d: Delayable, i: nat, x: Delayable, t: Delayable, h: Delayable, y: Delayable, n: nat, m: nat)
    requires d.Chain? && i + 1 < |d.members| && Leads(d.members[i], x, t, n) && Leads(d, h, y, m)
    requires t in Tail(d.members[i]) && h in Head(d.members[i + 1])
    ensures Joins(d, x, y)
  {
    LeadsLifts(d, i, x, t, n);
    assert Junction(d, i, t, h);
    OneEdge(d, t, h);
    LeadsJoin(d, x, t, h, n, 1);
    LeadsJoin(d, x, h, y, n + 1, m);
  }

  lemma JoinsLifts(d: Delayable, i: nat, x: Delayable, y: Delayable)
    requires !d.Single? && i < |d.members| && Joins(d.members[i], x, y)
    ensures Joins(d, x, y)
  {
    var n: nat :| Leads(d.members[i], x, y, n);
    LeadsLifts(d, i, x, y, n);
  }

  lemma JoinsStays(d: Delayable, i: nat, k: nat, x: Delayable, y: Delayable)
    requires !d.Single? && Distinct(d) && i < |d.members| && k < |d.members| && Joins(d, x, y)
    requires x in Units(d.members[i]) && y in Units(d.members[k])
    ensures i <= k && (d.Group? ==> i == k)
    ensures i == k ==> Joins(d.members[i], x, y)
  {
    var n: nat :| Leads(d, x, y, n);
    LeadsForward(d, x, y, n, i, k);
    if i == k {
      LeadsStays(d, i, x, y, n);
    }
  }

  lemma TowardLifts(d: Delayable, down: bool, i: nat, x: Delayable, t: Delayable)
    requires !d.Single? && i < |d.members| && Toward(d.members[i], down, x, t)
    ensures Toward(d, down, x, t)
  {
    if down {
      JoinsLifts(d, i, x, t);
    } else {
      JoinsLifts(d, i, t, x);
    }
  }

  lemma TowardStays(d: Delayable, down: bool, i: nat, k: nat, x: Delayable, t: Delayable)
    requires !d.Single? && Distinct(d) && i < |d.members| && k < |d.members| && Toward(d, down, x, t)
    requires x in Units(d.members[i]) && t in Units(d.members[k])
    ensures if down then i <= k else k <= i
    ensures d.Group? ==> i == k
    ensures i == k ==> Toward(d.members[i], down, x, t)
  {
    if down {
      JoinsStays(d, i, k, x, t);
    } else {
      JoinsStays(d, k, i, t, x);
    }
  }

  lemma OpenIsComplete(d: Delayable)
    requires !d.Single? && Distinct(d)
    requires forall i | 0 <= i < |d.members| :: Complete(d.members[i])
    requires d.Chain? ==> AllOpen(d)
    ensures Complete(d)
  {
    forall x, y | x in Units(d) && y in Units(d) && Precedes(d, x, y) ensures Joins(d, x, y) {
      var i := MemberOf(d, x);
      var k := MemberOf(d, y);
      OrderCases(d, x, y, i, k);
      if i == k {
        assert Complete(d.members[i]);
        JoinsLifts(d, i, x, y);
      } else {
        Bridge(d, i, k, x, y);
      }
    }
  }

  // ---------- the ends, read off the expression ----------

  lemma GroupDrains(d: Delayable, down: bool, tail: bool)
    requires d.Group? && Distinct(d)
    ensures Drains(d, down, tail) <==> forall i | 0 <= i < |d.members| :: Drains(d.members[i], down, tail)
  {
    if Drains(d, down, tail) {
      forall i | 0 <= i < |d.members| ensures Drains(d.members[i], down, tail) {
        forall x | x in Units(d.members[i]) ensures DrainsAt(d.members[i], down, tail, x) {
          GroupDrainsMember(d, down, tail, i, x);
        }
      }
    }
    if forall i | 0 <= i < |d.members| :: Drains(d.members[i], down, tail) {
      forall x | x in Units(d) ensures DrainsAt(d, down, tail, x) {
        MemberDrainsGroup(d, down, tail, MemberOf(d, x), x);
      }
    }
  }

  lemma GroupEnd(d: Delayable, tail: bool, t: Delayable) returns (k: nat)
    requires d.Group? && t in End(d, tail)
    ensures k < |d.members| && t in End(d.members[k], tail) && t in Units(d.members[k])
  {
    k :| 0 <= k < |d.members| && t in End(d.members[k], tail);
    EndsAreUnits(d.members[k]);
  }

  lemma GroupDrainsMember(d: Delayable, down: bool, tail: bool, i: nat, x: Delayable)
    requires d.Group? && Distinct(d) && i < |d.members| && x in Units(d.members[i]) && Drains(d, down, tail)
    ensures DrainsAt(d.members[i], down, tail, x)
  {
    MemberUnits(d, i);
    assert DrainsAt(d, down, tail, x);
    var t :| t in End(d, tail) && Toward(d, down, x, t);
    var k := GroupEnd(d, tail, t);
    TowardStays(d, down, i, k, x, t);
  }

  lemma MemberDrainsGroup(d: Delayable, down: bool, tail: bool, i: nat, x: Delayable)
    requires d.Group? && i < |d.members| && x in Units(d.members[i]) && Drains(d.members[i], down, tail)
    ensures DrainsAt(d, down, tail, x)
  {
    var e := d.members[i];
    assert DrainsAt(e, down, tail, x);
    var t :| t in End(e, tail) && Toward(e, down, x, t);
    assert t in End(d, tail);
    TowardLifts(d, down, i, x, t);
  }

  /** The ends of a chain towards which its jobs run are the opposite ends of its outer member. */
  lemma ChainEnd(d: Delayable, down: bool)
    requires d.Chain? && d.members != []
    ensures End(d, down) == End(d.members[Outer(d, down)], !down)
    ensures End(d, !down) == End(d.members[Outer(d, !down)], down)
  {
  }

  /** Jobs of a chain lead to its last member, or come from its first one. */
  lemma ChainDrains(d: Delayable, down: bool)
    requires d.Chain? && Distinct(d) && Complete(d) && d.members != [] && !Void(d)
    ensures Drains(d, down, down) <==>
              !Void(d.members[Outer(d, down)]) && Drains(d.members[Outer(d, down)], down, !down)
  {
    var e := d.members[Outer(d, down)];
    if Drains(d, down, down) {
      OuterIsFull(d, down);
      forall x | x in Units(e) ensures DrainsAt(e, down, !down, x) {
        ChainDrainsOuter(d, down, x);
      }
    }
    if !Void(e) && Drains(e, down, !down) {
      forall x | x in Units(d) ensures DrainsAt(d, down, down, x) {
        OuterDrainsChain(d, down, x);
      }
    }
  }

  lemma OuterIsFull(d: Delayable, down: bool)
    requires d.Chain? && d.members != [] && !Void(d) && Drains(d, down, down)
    ensures !Void(d.members[Outer(d, down)])
  {
    DrainsToFull(d, down, down);
    ChainEnd(d, down);
    EndsAreUnits(d.members[Outer(d, down)]);
  }

  /** What is not void and drains has an end. */
  lemma DrainsToFull(d: Delayable, down: bool, tail: bool)
    requires !Void(d) && Drains(d, down, tail)
    ensures End(d, tail) != {}
  {
    var x :| x in Units(d);
    assert DrainsAt(d, down, tail, x);
  }

  lemma ChainDrainsOuter(d: Delayable, down: bool, x: Delayable)
    requires d.Chain? && Distinct(d) && d.members != [] && Drains(d, down, down)
    requires x in Units(d.members[Outer(d, down)])
    ensures DrainsAt(d.members[Outer(d, down)], down, !down, x)
  {
    var o := Outer(d, down);
    MemberUnits(d, o);
    ChainEnd(d, down);
    assert DrainsAt(d, down, down, x);
    var t :| t in End(d, down) && Toward(d, down, x, t);
    EndsAreUnits(d.members[o]);
    TowardStays(d, down, o, o, x, t);
  }

  lemma CompleteToward(d: Delayable, down: bool, i: nat, x: Delayable, t: Delayable)
    requires d.Chain? && Distinct(d) && d.members != [] && Complete(d) && i < |d.members| && i != Outer(d, down)
    requires x in Units(d.members[i]) && t in Units(d.members[Outer(d, down)])
    ensures Toward(d, down, x, t)
  {
    var o := Outer(d, down);
    if down {
      var n := CompleteWalk(d, i, o, x, t);
    } else {
      var n := CompleteWalk(d, o, i, t, x);
    }
  }

  /** A job that leads to the ends of the outer member leads to those of the chain. */
  lemma OuterEnd(d: Delayable, down: bool, x: Delayable)
    requires d.Chain? && d.members != [] && DrainsAt(d.members[Outer(d, down)], down, !down, x)
    ensures DrainsAt(d, down, down, x)
  {
    var o := Outer(d, down);
    ChainEnd(d, down);
    var t :| t in End(d.members[o], !down) && Toward(d.members[o], down, x, t);
    TowardLifts(d, down, o, x, t);
  }

  lemma OuterDrainsChain(d: Delayable, down: bool, x: Delayable)
    requires d.Chain? && Distinct(d) && Complete(d) && d.members != [] && x in Units(d)
    requires !Void(d.members[Outer(d, down)]) && Drains(d.members[Outer(d, down)], down, !down)
    ensures DrainsAt(d, down, down, x)
  {
    var o, i := Outer(d, down), MemberOf(d, x);
    if i == o {
      OuterEnd(d, down, x);
    } else {
      OtherDrains(d, down, i, x);
    }
  }

  lemma OtherDrains(d: Delayable, down: bool, i: nat, x: Delayable)
    requires d.Chain? && Distinct(d) && Complete(d) && i < |d.members| && i != Outer(d, down) && x in Units(d.members[i])
    requires !Void(d.members[Outer(d, down)]) && Drains(d.members[Outer(d, down)], down, !down)
    ensures DrainsAt(d, down, down, x)
  {
    var e := d.members[Outer(d, down)];
    ChainEnd(d, down);
    DrainsToFull(e, down, !down);
    EndsAreUnits(e);
    var t :| t in End(d, down);
    CompleteToward(d, down, i, x, t);
  }

  /** Jobs of a chain do not lead back to its first member, or come from its last one. */
  lemma ChainDrainsBack(d: Delayable, down: bool)
    requires d.Chain? && Distinct(d) && d.members != []
    ensures Drains(d, down, !down) <==>
              OnlyFull(d, Outer(d, !down)) && Drains(d.members[Outer(d, !down)], down, down)
  {
    var o := Outer(d, !down);
    MemberUnits(d, o);
    if OnlyFull(d, o) {
      OnlyUnits(d, o);
      forall x | x in Units(d) ensures DrainsAt(d, down, !down, x) <==> DrainsAt(d.members[o], down, down, x) {
        OnlyMember(d, down, x);
      }
    } else if Drains(d, down, !down) {
      var a: nat :| a < |d.members| && a != o && !Void(d.members[a]);
      NotBack(d, down, a);
    }
  }

  lemma OnlyUnits(d: Delayable, o: nat)
    requires !d.Single? && o < |d.members| && OnlyFull(d, o)
    ensures Units(d) == Units(d.members[o])
  {
    MemberUnits(d, o);
    forall x | x in Units(d) ensures x in Units(d.members[o]) {
      var i := MemberOf(d, x);
      assert !Void(d.members[i]);
    }
  }

  lemma NotBack(d: Delayable, down: bool, a: nat)
    requires d.Chain? && Distinct(d) && a < |d.members| && a != Outer(d, !down) && !Void(d.members[a])
    ensures !Drains(d, down, !down)
  {
    var o := Outer(d, !down);
    if Drains(d, down, !down) {
      ChainEnd(d, down);
      EndsAreUnits(d.members[o]);
      var x :| x in Units(d.members[a]);
      MemberUnits(d, a);
      assert DrainsAt(d, down, !down, x);
      var t :| t in End(d, !down) && Toward(d, down, x, t);
      TowardStays(d, down, a, o, x, t);
    }
  }

  lemma OnlyMember(d: Delayable, down: bool, x: Delayable)
    requires d.Chain? && Distinct(d) && d.members != [] && x in Units(d.members[Outer(d, !down)])
    ensures DrainsAt(d, down, !down, x) <==> DrainsAt(d.members[Outer(d, !down)], down, down, x)
  {
    var o := Outer(d, !down);
    var e := d.members[o];
    ChainEnd(d, down);
    EndsAreUnits(e);
    forall t | t in End(e, down) ensures Toward(d, down, x, t) <==> Toward(e, down, x, t) {
      if Toward(e, down, x, t) {
        TowardLifts(d, down, o, x, t);
      }
      if Toward(d, down, x, t) {
        TowardStays(d, down, o, o, x, t);
      }
    }
  }

  lemma {:induction false} CoversIsDrains(d: Delayable, down: bool, tail: bool)
    requires Distinct(d) && Complete(d)
    ensures Covers(d, down, tail) <==> Drains(d, down, tail)
    decreases d
  {
    if d.Single? {
      assert Leads(d, d, d, 0);
      assert Toward(d, down, d, d);
    } else {
      forall i | 0 <= i < |d.members|
        ensures forall down, tail :: Covers(d.members[i], down, tail) <==> Drains(d.members[i], down, tail)
      {
        CompleteMember(d, i);
        forall down: bool, tail: bool ensures Covers(d.members[i], down, tail) <==> Drains(d.members[i], down, tail) {
          CoversIsDrains(d.members[i], down, tail);
        }
      }
      if d.Group? {
        GroupDrains(d, down, tail);
      } else if d.members == [] || Void(d) {
      } else if down == tail {
        ChainDrains(d, down);
      } else {
        ChainDrainsBack(d, down);
      }
    }
  }

  lemma FaithfulIsOpen(d: Delayable, i: nat)
    requires d.Chain? && Distinct(d) && i + 1 < |d.members|
    requires Complete(d.members[i]) && Complete(d.members[i + 1])
    ensures FaithfulAt(d, i) <==> Open(d, i)
  {
    CoversIsDrains(d.members[i], true, true);
    CoversIsDrains(d.members[i + 1], false, false);
  }

  lemma FaithfulStep(d: Delayable)
    requires !d.Single? && Distinct(d)
    requires forall i | 0 <= i < |d.members| :: Faithful(d.members[i]) && Complete(d.members[i])
    ensures Faithful(d) <==> Complete(d)
  {
    if d.Chain? {
      forall i | 0 <= i < |d.members| - 1 ensures FaithfulAt(d, i) <==> Open(d, i) {
        assert Complete(d.members[i]) && Complete(d.members[i + 1]);
        FaithfulIsOpen(d, i);
      }
    }
    if Complete(d) && d.Chain? {
      forall i, k | InSuccession(d, i, k) ensures k == i + 1 && FaithfulAt(d, i) {
        CompleteIsOpen(d, i, k);
      }
    }
    if Faithful(d) {
      OpenIsComplete(d);
    }
  }

  lemma {:induction false} FaithfulIsComplete(d: Delayable)
    requires Distinct(d)
    ensures Faithful(d) <==> Complete(d)
    decreases d
  {
    if !d.Single? {
      forall i | 0 <= i < |d.members|
        ensures Faithful(d.members[i]) <==> Complete(d.members[i])
        ensures Complete(d) ==> Complete(d.members[i])
      {
        FaithfulIsComplete(d.members[i]);
        if Complete(d) {
          CompleteMember(d, i);
        }
      }
      if forall i | 0 <= i < |d.members| :: Faithful(d.members[i]) {
        FaithfulStep(d);
      }
    }
  }

  lemma FollowsIsJoin(d: Delayable, x: Delayable, y: Delayable)
    requires Distinct(d)
    ensures Follows(d, x, y) <==> Precedes(d, x, y) && Joins(d, x, y)
  {
    if Follows(d, x, y) {
      FlatteningIsSound(d, x, y);
      var n: nat :| n > 0 && Leads(d, x, y, n);
    }
    if Precedes(d, x, y) && Joins(d, x, y) {
      OrderIsStrict(d, x);
      var n: nat :| Leads(d, x, y, n);
      assert n > 0;
    }
  }

  /** The flattened graph and the expression agree about `x` and `y`. */
  ghost predicate Agree(d: Delayable, x: Delayable, y: Delayable) {
    Follows(d, x, y) <==> Precedes(d, x, y)
  }

  /**
    The flattened graph asks for the same order as the expression if and only if, in every chain,
    the members that are not void are next to each other, and their ends at these places are in order.
   */
  lemma FlatteningIsFaithful(d: Delayable)
    requires Distinct(d)
    ensures Faithful(d) <==> forall x, y | x in Units(d) && y in Units(d) :: Agree(d, x, y)
  {
    FaithfulIsComplete(d);
    forall x, y | x in Units(d) && y in Units(d)
      ensures Agree(d, x, y) <==> (Precedes(d, x, y) ==> Joins(d, x, y))
    {
      FollowsIsJoin(d, x, y);
    }
  }

  // ---------- which expressions are safe ----------

  /** A delayable, or a group built from nothing but delayables. */
  predicate Plain(d: Delayable) {
    !d.Chain? && (d.Group? ==> forall i | 0 <= i < |d.members| :: Plain(d.members[i]))
  }

  /** Each chain, at any depth, starts and ends with a delayable or a plain group. */
  predicate PlainEnds(d: Delayable) {
    d.Single? ||
    (&& (forall i | 0 <= i < |d.members| :: PlainEnds(d.members[i]))
     && (d.Chain? && d.members != [] ==> Plain(d.members[0]) && Plain(d.members[|d.members| - 1])))
  }

  /** Every chain and group, at any depth, has a member. */
  ghost predicate NonEmpty(d: Delayable) {
    d.Single? || (d.members != [] && forall i | 0 <= i < |d.members| :: NonEmpty(d.members[i]))
  }

  lemma {:induction false} NonEmptyIsFull(d: Delayable)
    requires NonEmpty(d)
    ensures !Void(d)
    decreases d
  {
    if !d.Single? {
      NonEmptyIsFull(d.members[0]);
      MemberUnits(d, 0);
    }
  }

  lemma NoneBetween(d: Delayable, i: nat, k: nat)
    requires !d.Single? && NonEmpty(d) && InSuccession(d, i, k)
    ensures k == i + 1
  {
    NonEmptyIsFull(d.members[i + 1]);
  }

  lemma {:induction false} PlainCovers(d: Delayable, down: bool, tail: bool)
    requires Plain(d)
    ensures Covers(d, down, tail)
    decreases d
  {
    if d.Group? {
      forall i | 0 <= i < |d.members| ensures Covers(d.members[i], down, tail) {
        PlainCovers(d.members[i], down, tail);
      }
    }
  }

  lemma {:induction false} PlainEndsCover(d: Delayable, down: bool)
    requires PlainEnds(d) && NonEmpty(d)
    ensures Covers(d, down, down)
    decreases d
  {
    if d.Group? {
      forall i | 0 <= i < |d.members| ensures Covers(d.members[i], down, down) {
        PlainEndsCover(d.members[i], down);
      }
    } else if d.Chain? {
      NonEmptyIsFull(d.members[Outer(d, down)]);
      PlainCovers(d.members[Outer(d, down)], down, !down);
    }
  }

  lemma {:induction false} PlainEndsAreFaithful(d: Delayable)
    requires PlainEnds(d) && NonEmpty(d)
    ensures Faithful(d)
    decreases d
  {
    if !d.Single? {
      forall i | 0 <= i < |d.members| ensures Faithful(d.members[i]) && !Void(d.members[i]) {
        PlainEndsAreFaithful(d.members[i]);
        NonEmptyIsFull(d.members[i]);
      }
      if d.Chain? {
        forall i, k | InSuccession(d, i, k) ensures k == i + 1 && FaithfulAt(d, i) {
          NoneBetween(d, i, k);
          PlainEndsCover(d.members[i], true);
          PlainEndsCover(d.members[i + 1], false);
        }
      }
    }
  }

  // ---------- order that is lost ----------

  lemma NoEdgeFrom(d: Delayable, x: Delayable, y: Delayable)
    requires forall z | z in Units(d) :: !FlatEdge(d, x, z)
    ensures !Follows(d, x, y)
  {
    if n: nat :| n > 0 && Leads(d, x, y, n) {
      var z := FirstEdge(d, x, y, n);
    }
  }

  /**
    `chain(chain(x, chain(a, b)), c)`: the tail of the middle chain is the head of the inner one,
    which is `a`; so `c` does not wait for `b`.
   */
  lemma DeepChainLosesOrder(a: Delayable, b: Delayable, inner: Delayable, x: Delayable, middle: Delayable, c: Delayable, d: Delayable)
    requires a.Single? && b.Single? && x.Single? && c.Single? && a != b && b != x && b != c
    requires inner.Chain? && inner.members == [a, b]
    requires middle.Chain? && middle.members == [x, inner]
    requires d.Chain? && d.members == [middle, c]
    ensures Precedes(d, b, c) && !Follows(d, b, c)
  {
    MemberUnits(inner, 1);
    MemberUnits(middle, 1);
    assert d.members[1] == c && c in Units(c);
    assert UnitAfter(d, 0, c);
    forall z ensures !FlatEdge(inner, b, z) {
      assert !Junction(inner, 0, b, z);
    }
    forall z ensures !FlatEdge(middle, b, z) {
      assert !Junction(middle, 0, b, z) && !FlatEdge(middle.members[0], b, z);
    }
    forall z ensures !FlatEdge(d, b, z) {
      assert Tail(middle) == Head(inner) == {a};
      assert !Junction(d, 0, b, z) && !FlatEdge(d.members[1], b, z);
    }
    NoEdgeFrom(d, b, c);
  }

  /** `chain(a, group(), c)`: an empty group has no ends, so `c` does not wait for `a`. */
  lemma EmptyGroupLosesOrder(a: Delayable, empty: Delayable, c: Delayable, d: Delayable)
    requires a.Single? && c.Single? && a != c && empty.Group? && empty.members == []
    requires d.Chain? && d.members == [a, empty, c]
    ensures Precedes(d, a, c) && !Follows(d, a, c)
  {
    assert d.members[0] == a && d.members[1] == empty && d.members[2] == c;
    assert UnitAfter(d, 0, c);
    forall z ensures !FlatEdge(d, a, z) {
    }
    NoEdgeFrom(d, a, c);
  }
}
