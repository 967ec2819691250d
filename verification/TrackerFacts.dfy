// What the tracker's operations do to the relation they maintain, seen per notifier.

module TrackerFacts {
  import opened Storing
  import opened Tracking

  /** The dependencies paired with `n`. */
  ghost function Deps(t: seq<Pair>, n: Id): set<Id> {
    set p | p in t && p.notify == n :: p.view
  }

  /** Those of them marked as in use. */
  ghost function Marked(t: seq<Pair>, n: Id): set<Id> {
    set p | p in t && p.notify == n && p.mark :: p.view
  }

  /** Those of them never yet read from the cache. */
  ghost function Unread(t: seq<Pair>, n: Id): set<Id> {
    set p | p in t && p.notify == n && !p.accessed :: p.view
  }

  /** Every view ID named by some pair. */
  ghost function Named(t: seq<Pair>): set<Id> {
    set p | p in t :: p.view
  }

  ghost function Notifying(t: seq<Pair>): set<Id> {
    set p | p in t :: p.notify
  }

  /** The pairs of all other notifiers, in order. */
  ghost function Others(t: seq<Pair>, n: Id): seq<Pair> {
    if t == [] then []
    else
      var p := t[|t| - 1];
      Others(t[..|t| - 1], n) + if p.notify != n then [p] else []
  }

  /** No two entries pair the same view with the same notifier. */
  ghost predicate NoDuplicates(t: seq<Pair>) {
    forall i, j :: 0 <= i < j < |t| ==> t[i].view != t[j].view || t[i].notify != t[j].notify
  }

  // --- Others ---

  lemma {:induction false} OthersAppend(t: seq<Pair>, p: Pair, n: Id)
    ensures Others(t + [p], n) == Others(t, n) + if p.notify != n then [p] else []
  {
    assert (t + [p])[..|t|] == t;
  }

  /** A rewrite that touches only `n`'s pairs, and no IDs, leaves the others' pairs alone. */
  lemma {:induction false} OthersRewrite(t: seq<Pair>, u: seq<Pair>, n: Id)
    requires |t| == |u|
    requires forall i :: 0 <= i < |t| ==> t[i].notify == u[i].notify && (t[i] == u[i] || t[i].notify == n)
    ensures Others(t, n) == Others(u, n)
  {
    if t != [] {
      OthersRewrite(t[..|t| - 1], u[..|u| - 1], n);
    }
  }

  lemma {:induction false} OthersKeep(t: seq<Pair>, n: Id)
    ensures Others(Keep(t, n), n) == Others(t, n)
  {
    if t != [] {
      var s, p := t[..|t| - 1], t[|t| - 1];
      OthersKeep(s, n);
      if p.mark || p.notify != n {
        OthersAppend(Keep(s, n), p, n);
      } else {
        assert Keep(t, n) == Keep(s, n) && Others(t, n) == Others(s, n);
      }
    }
  }

  lemma {:induction false} OthersMember(t: seq<Pair>, n: Id, p: Pair)
    ensures p in Others(t, n) <==> p in t && p.notify != n
  {
    if t != [] {
      assert t == t[..|t| - 1] + [t[|t| - 1]];
      OthersMember(t[..|t| - 1], n, p);
    }
  }

  /** The pairs of `m` are all among the others' of `n`. */
  lemma OthersDecide(t: seq<Pair>, u: seq<Pair>, n: Id, m: Id)
    requires Others(t, n) == Others(u, n) && m != n
    ensures Deps(t, m) == Deps(u, m) && Unread(t, m) == Unread(u, m) && Marked(t, m) == Marked(u, m)
    ensures Complete(t, m) <==> Complete(u, m)
  {
    forall p: Pair | p.notify == m
      ensures p in t <==> p in u
    {
      OthersMember(t, n, p);
      OthersMember(u, n, p);
    }
  }

  // --- Keep ---

  lemma {:induction false} KeepMember(t: seq<Pair>, n: Id, p: Pair)
    ensures p in Keep(t, n) <==> p in t && (p.mark || p.notify != n)
  {
    if t != [] {
      assert t == t[..|t| - 1] + [t[|t| - 1]];
      KeepMember(t[..|t| - 1], n, p);
    }
  }

  lemma KeepMembers(t: seq<Pair>, n: Id)
    ensures forall p :: p in Keep(t, n) <==> p in t && (p.mark || p.notify != n)
  {
    forall p ensures p in Keep(t, n) <==> p in t && (p.mark || p.notify != n) {
      KeepMember(t, n, p);
    }
  }

  lemma {:induction false} KeepNoDuplicates(t: seq<Pair>, n: Id)
    requires NoDuplicates(t)
    ensures NoDuplicates(Keep(t, n))
  {
    if t != [] {
      var s, p := t[..|t| - 1], t[|t| - 1];
      KeepNoDuplicates(s, n);
      KeepMembers(s, n);
      forall q | q in Keep(s, n) ensures q.view != p.view || q.notify != p.notify {
        assert q in s;
      }
    }
  }

  /** With no duplicates a sweep for `n` leaves it exactly its marked dependencies. */
  lemma KeepDeps(t: seq<Pair>, n: Id)
    requires NoDuplicates(t)
    ensures Deps(Keep(t, n), n) == Marked(t, n) == Marked(Keep(t, n), n)
    ensures Unread(Keep(t, n), n) == Unread(t, n) * Marked(t, n)
  {
    KeepMembers(t, n);
    forall d | d in Unread(t, n) * Marked(t, n)
      ensures d in Unread(Keep(t, n), n)
    {
      var i :| 0 <= i < |t| && t[i].notify == n && t[i].view == d && !t[i].accessed;
      var j :| 0 <= j < |t| && t[j].notify == n && t[j].view == d && t[j].mark;
      assert i == j;
      assert t[i] in Keep(t, n);
    }
  }

  // --- the in-place flag updates ---

  /** `u` is `t` with some flags of `n`'s pairs changed. */
  ghost predicate Reflagged(t: seq<Pair>, u: seq<Pair>, n: Id) {
    && |t| == |u|
    && forall i :: 0 <= i < |t| ==>
      t[i].view == u[i].view && t[i].notify == u[i].notify && (t[i] == u[i] || t[i].notify == n)
  }

  lemma ReflaggedFacts(t: seq<Pair>, u: seq<Pair>, n: Id)
    requires Reflagged(t, u, n)
    ensures Deps(u, n) == Deps(t, n) && Others(u, n) == Others(t, n)
    ensures Named(u) == Named(t) && Notifying(u) == Notifying(t)
    ensures NoDuplicates(t) ==> NoDuplicates(u)
  {
    OthersRewrite(t, u, n);
    ReflaggedSubset(t, u, n);
    ReflaggedSubset(u, t, n);
  }

  lemma ReflaggedSubset(t: seq<Pair>, u: seq<Pair>, n: Id)
    requires Reflagged(t, u, n)
    ensures Deps(t, n) <= Deps(u, n) && Named(t) <= Named(u) && Notifying(t) <= Notifying(u)
  {
    forall p | p in t
      ensures exists q :: q in u && q.view == p.view && q.notify == p.notify
    {
      var i :| 0 <= i < |t| && t[i] == p;
      assert u[i] in u;
    }
  }

  lemma UnreadSubset(t: seq<Pair>, u: seq<Pair>, n: Id, except: set<Id>)
    requires Reflagged(t, u, n)
    requires forall i :: 0 <= i < |t| && t[i].view !in except && !t[i].accessed ==> !u[i].accessed
    ensures Unread(t, n) - except <= Unread(u, n)
  {
    forall e | e in Unread(t, n) - except
      ensures e in Unread(u, n)
    {
      var i :| 0 <= i < |t| && t[i].notify == n && t[i].view == e && !t[i].accessed;
      assert u[i] in u && !u[i].accessed;
    }
  }

  lemma MarkedSubset(t: seq<Pair>, u: seq<Pair>, n: Id, except: set<Id>)
    requires Reflagged(t, u, n)
    requires forall i :: 0 <= i < |t| && t[i].view !in except && t[i].mark ==> u[i].mark
    ensures Marked(t, n) - except <= Marked(u, n)
  {
    forall e | e in Marked(t, n) - except
      ensures e in Marked(u, n)
    {
      var i :| 0 <= i < |t| && t[i].notify == n && t[i].view == e && t[i].mark;
      assert u[i] in u && u[i].mark;
    }
  }

  lemma MarkInUseFacts(t: seq<Pair>, n: Id, d: Id)
    ensures Reflagged(t, MarkInUse(t, n, d), n)
    ensures Unread(MarkInUse(t, n, d), n) == Unread(t, n)
    ensures Marked(MarkInUse(t, n, d), n) == Marked(t, n) + Deps(t, n) * {d}
  {
    var u := MarkInUse(t, n, d);
    UnreadSubset(t, u, n, {});
    UnreadSubset(u, t, n, {});
    MarkedSubset(t, u, n, {});
    MarkedSubset(u, t, n, {d});
    MarkedOne(t, n, d);
  }

  lemma MarkedOne(t: seq<Pair>, n: Id, d: Id)
    ensures d in Marked(MarkInUse(t, n, d), n) <==> d in Deps(t, n)
  {
    var u := MarkInUse(t, n, d);
    if d in Deps(t, n) {
      var i :| 0 <= i < |t| && t[i].notify == n && t[i].view == d;
      assert u[i] in u && u[i].mark;
    }
    if d in Marked(u, n) {
      var i :| 0 <= i < |u| && u[i].notify == n && u[i].view == d;
      assert t[i] in t;
    }
  }

  lemma CacheAccessedFacts(t: seq<Pair>, n: Id, d: Id)
    ensures Reflagged(t, CacheAccessed(t, n, d), n)
    ensures Marked(CacheAccessed(t, n, d), n) == Marked(t, n)
    ensures Unread(CacheAccessed(t, n, d), n) == Unread(t, n) - {d}
  {
    var u := CacheAccessed(t, n, d);
    MarkedSubset(t, u, n, {});
    MarkedSubset(u, t, n, {});
    UnreadSubset(t, u, n, {d});
    UnreadSubset(u, t, n, {});
    assert d !in Unread(u, n);
  }

  lemma MarkForSweepFacts(t: seq<Pair>, n: Id)
    ensures Reflagged(t, MarkForSweep(t, n), n)
    ensures Marked(MarkForSweep(t, n), n) == {}
    ensures Unread(MarkForSweep(t, n), n) == Unread(t, n)
  {
    var u := MarkForSweep(t, n);
    UnreadSubset(t, u, n, {});
    UnreadSubset(u, t, n, {});
  }

  lemma AppendFacts(t: seq<Pair>, n: Id, d: Id)
    requires d !in Deps(t, n)
    ensures var u := t + [Pair(d, n, true, false)];
      && Deps(u, n) == Deps(t, n) + {d} && Unread(u, n) == Unread(t, n) + {d}
      && Marked(u, n) == Marked(t, n) + {d}
      && Others(u, n) == Others(t, n)
      && (NoDuplicates(t) ==> NoDuplicates(u))
      && Named(u) == Named(t) + {d} && Notifying(u) == Notifying(t) + {n}
  {
    var p := Pair(d, n, true, false);
    OthersAppend(t, p, n);
    assert forall q :: q in t + [p] <==> q in t || q == p;
    forall i | 0 <= i < |t| ensures t[i].view != d || t[i].notify != n {
      assert t[i] in t;
    }
  }

  /** Tracking `d` for `n`: mark the pair if it is there, else append it. */
  ghost function PairUp(t: seq<Pair>, n: Id, d: Id): seq<Pair> {
    var u := MarkInUse(t, n, d);
    if Paired(u, n, d) then u else u + [Pair(d, n, true, false)]
  }

  lemma PairUpFacts(t: seq<Pair>, n: Id, d: Id)
    ensures var u := PairUp(t, n, d);
      && Deps(u, n) == Deps(t, n) + {d}
      && Marked(u, n) == Marked(t, n) + {d}
      && Unread(u, n) == Unread(t, n) + ({d} - Deps(t, n))
      && Others(u, n) == Others(t, n)
      && Named(u) == Named(t) + {d} && Notifying(u) == Notifying(t) + {n}
      && (NoDuplicates(t) ==> NoDuplicates(u))
  {
    var m := MarkInUse(t, n, d);
    var u := PairUp(t, n, d);
    assert Deps(m, n) == Deps(t, n) && Named(m) == Named(t) && Notifying(m) == Notifying(t)
      && Others(m, n) == Others(t, n) && Unread(m, n) == Unread(t, n)
      && Marked(m, n) == Marked(t, n) + Deps(t, n) * {d} && (NoDuplicates(t) ==> NoDuplicates(m))
    by {
      MarkInUseFacts(t, n, d);
      ReflaggedFacts(t, m, n);
    }
    if Paired(m, n, d) {
      PairedNames(m, n, d);
    } else {
      assert d !in Deps(m, n);
      AppendFacts(m, n, d);
    }
  }

  lemma PairedNames(t: seq<Pair>, n: Id, d: Id)
    requires Paired(t, n, d)
    ensures d in Deps(t, n) && d in Named(t) && n in Notifying(t)
  {
    var p :| p in t && p.notify == n && p.view == d;
    assert p.view in Named(t) && p.notify in Notifying(t);
  }

  lemma PairedDeps(t: seq<Pair>, n: Id, d: Id)
    ensures Paired(t, n, d) <==> d in Deps(t, n)
    ensures Complete(t, n) <==> Unread(t, n) == {}
    ensures Paired(MarkInUse(t, n, d), n, d) <==> Paired(t, n, d)
  {
    MarkInUseFacts(t, n, d);
    ReflaggedFacts(t, MarkInUse(t, n, d), n);
    if Complete(t, n) {
      assert Unread(t, n) == {};
    } else {
      var p :| p in t && p.notify == n && !p.accessed;
      assert p.view in Unread(t, n);
    }
  }

  /** Both the pairs kept and the notifiers told come in tracking order. */
  lemma {:induction false} KeepAppend(t: seq<Pair>, u: seq<Pair>, n: Id)
    ensures Keep(t + u, n) == Keep(t, n) + Keep(u, n)
    decreases |u|
  {
    if u == [] {
      assert t + u == t;
    } else {
      KeepAppend(t, u[..|u| - 1], n);
      assert (t + u)[..|t| + |u| - 1] == t + u[..|u| - 1];
    }
  }

  lemma {:induction false} NotifiersForAppend(t: seq<Pair>, u: seq<Pair>, d: Id)
    ensures NotifiersFor(t + u, d) == NotifiersFor(t, d) + NotifiersFor(u, d)
    decreases |u|
  {
    if u == [] {
      assert t + u == t;
    } else {
      NotifiersForAppend(t, u[..|u| - 1], d);
      assert (t + u)[..|t| + |u| - 1] == t + u[..|u| - 1];
    }
  }

  /** The notifiers told about `d` are those paired with it. */
  lemma {:induction false} NotifiersForMember(t: seq<Pair>, d: Id, n: Id)
    ensures n in NotifiersFor(t, d) <==> d in Deps(t, n)
  {
    if t != [] {
      assert t == t[..|t| - 1] + [t[|t| - 1]];
      NotifiersForMember(t[..|t| - 1], d, n);
    }
  }
}
