/** A transaction that is handed from one handle to the next. */
module TransactionMoves {
  import opened Options
  import opened HandleState
  import opened Protocol

  // From action k on, the handle at the front of the path is moved along it, to a new handle or onto another one.
  ghost predicate MovesAlong(states: seq<Sys>, acts: seq<Action>, k: nat, path: seq<Id>) {
    Run(states, acts) && path != [] && k + |path| - 1 <= |acts| && path[0] in states[k].handles
    && forall m :: 0 <= m < |path| - 1 ==>
         path[m + 1] != path[m]
         && ((acts[k + m] == MoveConstruct(path[m]) && path[m + 1] == states[k + m].next)
             || acts[k + m] == MoveAssign(path[m + 1], path[m]))
  }

  // The connections and what ran on them are the same.
  predicate SameConnections(before: map<Id, Exec>, after: map<Id, Exec>) {
    forall e :: e in before ==> e in after && after[e] == before[e].(owner := after[e].owner)
  }

  lemma OwnerOnly(execs: map<Id, Exec>, x: Option<Id>, owner: Owner)
    ensures SameConnections(execs, OwnedBy(execs, x, owner))
  {
  }

  lemma LetGoOnly(execs: map<Id, Exec>, x: Option<Id>)
    ensures SameConnections(execs, LetGoOf(execs, x))
  {
  }

  lemma SameTwice(a: map<Id, Exec>, b: map<Id, Exec>, c: map<Id, Exec>)
    requires SameConnections(a, b) && SameConnections(b, c)
    ensures SameConnections(a, c)
  {
  }

  lemma MoveKeepsConnections(s: Sys, a: Action)
    requires Enabled(s, a) && (a.MoveConstruct? || a.MoveAssign?)
    requires a.MoveAssign? ==> a.dst != a.src
    ensures SameConnections(s.execs, Apply(s, a).execs)
  {
    match a {
      case MoveConstruct(src) => OwnerOnly(s.execs, s.handles[src].exec, ByHandle(s.next));
      case MoveAssign(dst, src) =>
        var left := LetGoOf(s.execs, s.handles[dst].exec);
        LetGoOnly(s.execs, s.handles[dst].exec);
        OwnerOnly(left, s.handles[src].exec, ByHandle(dst));
        SameTwice(s.execs, left, Apply(s, a).execs);
    }
  }

  // One move, in raw terms.
  lemma MovesOn(s: Sys, a: Action, from: Id, to: Id)
    requires Enabled(s, a) && from in s.handles && from != to
    requires (a == MoveConstruct(from) && to == s.next) || a == MoveAssign(to, from)
    ensures Apply(s, a).handles == s.handles[to := s.handles[from]][from := Handle(InValid, None, None, None)]
  {
  }

  /** After any chain of moves the last handle is what the first one was: same state, same executor, same
      transaction, on the same connection with the same log. All the others on the path are invalid and
      empty. */
  lemma {:induction false} HandleTravels(states: seq<Sys>, acts: seq<Action>, k: nat, path: seq<Id>)
    requires MovesAlong(states, acts, k, path)
    ensures var s, s', last := states[k], states[k + |path| - 1], path[|path| - 1];
            last in s'.handles && s'.handles[last] == s.handles[path[0]]
            && (forall m :: 0 <= m < |path| && path[m] != last ==>
                  path[m] in s'.handles && s'.handles[path[m]] == Handle(InValid, None, None, None))
            && SameConnections(s.execs, s'.execs)
  {
    var n := |path| - 1;
    if n > 0 {
      var before := path[..n];
      assert MovesAlong(states, acts, k, before);
      HandleTravels(states, acts, k, before);
      assert StepAt(states, acts, k + (n - 1));
      MovesOn(states[k + n - 1], acts[k + n - 1], path[n - 1], path[n]);
      MoveKeepsConnections(states[k + n - 1], acts[k + n - 1]);
      forall m | 0 <= m < n && path[m] != path[n]
        ensures path[m] in states[k + n].handles
                && states[k + n].handles[path[m]] == Handle(InValid, None, None, None)
      {
        assert path[m] == before[m];
      }
    }
  }
}
