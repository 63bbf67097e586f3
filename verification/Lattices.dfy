/** Documents whose updates merge in any order: a join semilattice, and folds of logs of updates over it. */
module Lattices {
  /** The empty document, and how two documents (or a document and an update) merge. */
  datatype Lattice<!D> = Lattice(bot: D, join: (D, D) -> D)

  ghost predicate LawsAt<D>(l: Lattice<D>, a: D, b: D, c: D) {
    && l.join(l.bot, a) == a
    && l.join(a, a) == a
    && l.join(a, b) == l.join(b, a)
    && l.join(l.join(a, b), c) == l.join(a, l.join(b, c))
  }

  ghost predicate Laws<D(!new)>(l: Lattice<D>) {
    forall a, b, c :: LawsAt(l, a, b, c)
  }

  /** `b` already holds everything in `a`. */
  ghost predicate Below<D>(l: Lattice<D>, a: D, b: D) {
    l.join(a, b) == b
  }

  lemma BelowJoin<D(!new)>(l: Lattice<D>, a: D, b: D)
    requires Laws(l)
    ensures Below(l, a, l.join(a, b)) && Below(l, b, l.join(a, b))
  {
    assert LawsAt(l, a, a, b);
    assert LawsAt(l, b, b, a);
    assert LawsAt(l, a, b, b);
  }

  lemma JoinBelow<D(!new)>(l: Lattice<D>, a: D, b: D, c: D)
    requires Laws(l) && Below(l, a, c) && Below(l, b, c)
    ensures Below(l, l.join(a, b), c)
  {
    assert LawsAt(l, a, b, c);
  }

  lemma BelowTrans<D(!new)>(l: Lattice<D>, a: D, b: D, c: D)
    requires Laws(l) && Below(l, a, b) && Below(l, b, c)
    ensures Below(l, a, c)
  {
    assert LawsAt(l, a, b, c);
  }

  lemma BelowBoth<D(!new)>(l: Lattice<D>, a: D, b: D)
    requires Laws(l) && Below(l, a, b) && Below(l, b, a)
    ensures a == b
  {
    assert LawsAt(l, a, b, b);
  }

  lemma BotBelow<D(!new)>(l: Lattice<D>, a: D)
    requires Laws(l)
    ensures Below(l, l.bot, a)
  {
    assert LawsAt(l, a, a, a);
  }

  lemma BelowSelf<D(!new)>(l: Lattice<D>, a: D)
    requires Laws(l)
    ensures Below(l, a, a)
  {
    assert LawsAt(l, a, a, a);
  }

  // ---- logs ----

  /** Updates by sequence number. */
  type Log<D> = map<nat, D>

  /** A log folded in the order of its numbers, up to one. */
  function Fold<D>(l: Lattice<D>, log: Log<D>, n: nat): D {
    if n == 0 then l.bot
    else
      var before := Fold(l, log, n - 1);
      if n - 1 in log then l.join(before, log[n - 1]) else before
  }

  lemma {:induction false} FoldNothing<D>(l: Lattice<D>, log: Log<D>, n: nat)
    requires forall k :: k < n ==> k !in log
    ensures Fold(l, log, n) == l.bot
  {
    if n > 0 {
      FoldNothing(l, log, n - 1);
    }
  }

  lemma {:induction false} InFold<D(!new)>(l: Lattice<D>, log: Log<D>, n: nat, k: nat)
    requires Laws(l) && k in log && k < n
    ensures Below(l, log[k], Fold(l, log, n))
  {
    var before := Fold(l, log, n - 1);
    if k < n - 1 {
      InFold(l, log, n - 1, k);
      if n - 1 in log {
        BelowJoin(l, before, log[n - 1]);
        BelowTrans(l, log[k], before, l.join(before, log[n - 1]));
      }
    } else {
      BelowJoin(l, before, log[k]);
    }
  }

  /** A fold is the least document above every update in the log. */
  lemma {:induction false} FoldBelow<D(!new)>(l: Lattice<D>, log: Log<D>, n: nat, top: D)
    requires Laws(l) && forall k :: k in log && k < n ==> Below(l, log[k], top)
    ensures Below(l, Fold(l, log, n), top)
  {
    if n == 0 {
      BotBelow(l, top);
    } else {
      FoldBelow(l, log, n - 1, top);
      if n - 1 in log {
        JoinBelow(l, Fold(l, log, n - 1), log[n - 1], top);
      }
    }
  }

  /** Numbers a log does not reach add nothing. */
  lemma {:induction false} FoldPast<D>(l: Lattice<D>, log: Log<D>, n: nat, m: nat)
    requires n <= m && forall k :: k in log ==> k < n
    ensures Fold(l, log, m) == Fold(l, log, n)
  {
    if n < m {
      FoldPast(l, log, n, m - 1);
    }
  }

  /** One log's fold is below another's where every update in it is. */
  lemma FoldsBelow<D(!new)>(l: Lattice<D>, a: Log<D>, b: Log<D>, n: nat)
    requires Laws(l) && forall k :: k in a && k < n ==> Below(l, a[k], Fold(l, b, n))
    ensures Below(l, Fold(l, a, n), Fold(l, b, n))
  {
    FoldBelow(l, a, n, Fold(l, b, n));
  }

  /** Without one row, a log folds to the join of that row and the rest. */
  lemma FoldWith<D(!new)>(l: Lattice<D>, log: Log<D>, n: nat, k: nat, u: D)
    requires Laws(l) && k !in log && k < n
    ensures Fold(l, log[k := u], n) == l.join(u, Fold(l, log, n))
  {
    var more := log[k := u];
    var all, rest := Fold(l, more, n), Fold(l, log, n);
    BelowJoin(l, u, rest);
    forall j | j in more && j < n ensures Below(l, more[j], l.join(u, rest)) {
      if j != k {
        InFold(l, log, n, j);
        BelowTrans(l, log[j], rest, l.join(u, rest));
      }
    }
    FoldBelow(l, more, n, l.join(u, rest));
    forall j | j in log && j < n ensures Below(l, log[j], all) {
      InFold(l, more, n, j);
    }
    FoldsBelow(l, log, more, n);
    InFold(l, more, n, k);
    JoinBelow(l, u, rest, all);
    BelowBoth(l, all, l.join(u, rest));
  }
}
