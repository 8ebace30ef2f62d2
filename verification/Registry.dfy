/** apps/indexer/src/modules.ts: the op-module registry mirrored from its balanced add/remove stream. */
module Registry {
  import opened Chain

  datatype State = State(byAddress: map<Address, bool>, seen: set<Key>, pendingUpserts: seq<(Address, bool)>)

  const EMPTY := State(map[], {}, [])

  predicate IsRegistered(s: State, a: Address) {
    a in s.byAddress && s.byAddress[a]
  }

  /** Ever registered: what OpApplied's module is checked against. */
  predicate IsKnown(s: State, a: Address) {
    a in s.byAddress
  }

  function SetFlag(s: State, a: Address, registered: bool): State {
    s.(byAddress := s.byAddress[a := registered], pendingUpserts := s.pendingUpserts + [(a, registered)])
  }

  /** ModuleRegistered or ModuleRemoved. The key is taken first; false is the throw over a transition
      the pool would have reverted. */
  function Apply(s: State, key: Key, a: Address, registered: bool): (State, bool) {
    if key in s.seen then (s, true)
    else
      var keyed := s.(seen := s.seen + {key});
      if IsRegistered(s, a) == registered then (keyed, false) else (SetFlag(keyed, a, registered), true)
  }

  /** The log filter for module-emitted events: registered, or removed but still owing kem chunks. */
  function WatchAddresses(s: State, pendingKem: set<Address>): set<Address> {
    set a | a in s.byAddress && (s.byAddress[a] || a in pendingKem)
  }

  /** The throw that should stop the poll loop on a corrupt stream stops it once: the retry takes the
      log for a replay and goes on, with the registry as if the log had never come. */
  lemma ThrowIsNotRepeated(s: State, key: Key, a: Address, registered: bool)
    requires key !in s.seen
    ensures var (first, ok) := Apply(s, key, a, registered);
            && (ok <==> IsRegistered(s, a) != registered)
            && (!ok ==> Apply(first, key, a, registered) == (first, true) && first.byAddress == s.byAddress)
  {
  }

  /** Seen once, a transition makes the module registered, or not, as it says; no other module moves, and
      one ever registered stays known. */
  lemma ApplyExact(s: State, key: Key, a: Address, registered: bool, b: Address)
    ensures var (s', ok) := Apply(s, key, a, registered);
            && s'.seen == s.seen + {key}
            && (ok <==> key in s.seen || IsRegistered(s, a) != registered)
            && (IsRegistered(s', b) <==> if b == a && key !in s.seen && ok then registered else IsRegistered(s, b))
            && (IsKnown(s', b) <==> IsKnown(s, b) || (b == a && key !in s.seen && ok))
  {
  }

  // ---- the modules table: upserts ----------------------------------------------------

  function Stage(t: map<Address, bool>, rows: seq<(Address, bool)>): map<Address, bool> {
    if rows == [] then t
    else
      var (a, registered) := rows[|rows| - 1];
      Stage(t, rows[..|rows| - 1])[a := registered]
  }

  function Boot(t: map<Address, bool>): State {
    State(t, {}, [])
  }

  function Core(s: State): State {
    State(s.byAddress, {}, [])
  }

  /** The durable rows plus the buffer are the mirror. */
  predicate Synced(t: map<Address, bool>, s: State) {
    Stage(t, s.pendingUpserts) == s.byAddress
  }

  lemma StageOneMore(t: map<Address, bool>, rows: seq<(Address, bool)>, a: Address, registered: bool)
    ensures Stage(t, rows + [(a, registered)]) == Stage(t, rows)[a := registered]
  {
    assert (rows + [(a, registered)])[..|rows|] == rows;
  }

  lemma ApplyStaysSynced(t: map<Address, bool>, s: State, key: Key, a: Address, registered: bool)
    requires Synced(t, s)
    ensures Synced(t, Apply(s, key, a, registered).0)
  {
    StageOneMore(t, s.pendingUpserts, a, registered);
  }

  lemma {:induction false} StageOff(t: map<Address, bool>, rows: seq<(Address, bool)>, a: Address, registered: bool)
    ensures Stage(t[a := registered], rows)[a := registered] == Stage(t, rows)[a := registered]
  {
    if rows != [] {
      StageOff(t, rows[..|rows| - 1], a, registered);
      SetCommutes(Stage(t[a := registered], rows[..|rows| - 1]), Stage(t, rows[..|rows| - 1]), a, registered,
                  rows[|rows| - 1].0, rows[|rows| - 1].1);
    }
  }

  lemma SetCommutes(x: map<Address, bool>, y: map<Address, bool>, a: Address, registered: bool, b: Address, flag: bool)
    requires x[a := registered] == y[a := registered]
    ensures x[b := flag][a := registered] == y[b := flag][a := registered]
  {
    var p, q := x[b := flag][a := registered], y[b := flag][a := registered];
    forall k
      ensures k in p <==> k in q
      ensures k in p ==> p[k] == q[k]
    {
      assert k in x[a := registered] <==> k in y[a := registered];
    }
  }

  /** Staging the buffer again over rows that already have it changes nothing, at any moment. */
  predicate Restageable(s: State) {
    Stage(s.byAddress, s.pendingUpserts) == s.byAddress
  }

  lemma ApplyStaysRestageable(s: State, key: Key, a: Address, registered: bool)
    requires Restageable(s)
    ensures Restageable(Apply(s, key, a, registered).0)
  {
    StageOneMore(s.byAddress[a := registered], s.pendingUpserts, a, registered);
    StageOff(s.byAddress, s.pendingUpserts, a, registered);
  }

  // ---- the object --------------------------------------------------------------------

  lemma StageStep(t: map<Address, bool>, rows: seq<(Address, bool)>, i: nat)
    requires i < |rows|
    ensures Stage(t, rows[..i + 1]) == Stage(t, rows[..i])[rows[i].0 := rows[i].1]
  {
    assert rows[..i + 1] == rows[..i] + [rows[i]];
    StageOneMore(t, rows[..i], rows[i].0, rows[i].1);
  }

  class ModuleRegistry {
    var byAddress: map<Address, bool>
    var seen: set<Key>
    var pendingUpserts: seq<(Address, bool)>

    ghost function View(): State
      reads this
    {
      State(byAddress, seen, pendingUpserts)
    }

    constructor ()
      ensures View() == EMPTY
    {
      byAddress, seen, pendingUpserts := map[], {}, [];
    }

    /** boot: the rows of the modules table, in whatever order they come. */
    method Boot(rows: seq<(Address, bool)>)
      modifies this`byAddress
      ensures byAddress == Stage(old(byAddress), rows)
    {
      var i := 0;
      assert rows[..0] == [];
      while i < |rows|
        invariant i <= |rows| && byAddress == Stage(old(byAddress), rows[..i])
      {
        StageStep(old(byAddress), rows, i);
        byAddress := byAddress[rows[i].0 := rows[i].1];
        i := i + 1;
      }
      assert rows[..|rows|] == rows;
    }

    method ApplyRegistered(key: Key, a: Address) returns (ok: bool)
      modifies this
      ensures (View(), ok) == Apply(old(View()), key, a, true)
    {
      if key in seen {
        return true;
      }
      seen := seen + {key};
      if a in byAddress && byAddress[a] {
        return false;
      }
      byAddress := byAddress[a := true];
      pendingUpserts := pendingUpserts + [(a, true)];
      ok := true;
    }

    method ApplyRemoved(key: Key, a: Address) returns (ok: bool)
      modifies this
      ensures (View(), ok) == Apply(old(View()), key, a, false)
    {
      if key in seen {
        return true;
      }
      seen := seen + {key};
      if !(a in byAddress && byAddress[a]) {
        return false;
      }
      byAddress := byAddress[a := false];
      pendingUpserts := pendingUpserts + [(a, false)];
      ok := true;
    }

    /** watchAddresses: a pass over the map's entries. */
    method Watch(pendingKem: set<Address>) returns (watch: set<Address>)
      ensures watch == WatchAddresses(View(), pendingKem)
    {
      watch := {};
      var left := byAddress.Keys;
      while left != {}
        invariant left <= byAddress.Keys
        invariant forall a :: a in watch <==> a in byAddress && a !in left && (byAddress[a] || a in pendingKem)
        decreases |left|
      {
        var a :| a in left;
        left := left - {a};
        if byAddress[a] || a in pendingKem {
          watch := watch + {a};
        }
      }
    }

    /** flushInto: the open transaction goes in and comes out. */
    method FlushInto(t: map<Address, bool>) returns (t': map<Address, bool>)
      ensures t' == Stage(t, View().pendingUpserts)
    {
      t' := t;
      var i := 0;
      assert pendingUpserts[..0] == [];
      while i < |pendingUpserts|
        invariant i <= |pendingUpserts| && t' == Stage(t, pendingUpserts[..i])
      {
        StageStep(t, pendingUpserts, i);
        t' := t'[pendingUpserts[i].0 := pendingUpserts[i].1];
        i := i + 1;
      }
      assert pendingUpserts[..|pendingUpserts|] == pendingUpserts;
    }

    method CommitFlush()
      modifies this`pendingUpserts
      ensures View() == old(View()).(pendingUpserts := [])
    {
      pendingUpserts := [];
    }
  }
}
