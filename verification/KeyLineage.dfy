/** Rotation lineages over every run of credentials: they never loop, never
    branch, hold at most one active key, and share owner, rights and expiry. */
module KeyLineage {
  import opened Common
  import opened ApiKeys
  import opened Credentials
  import opened CredentialRuns

  /** The n-th predecessor of a key. */
  function Ancestor(keys: Keys, k: KeyId, n: nat): Option<KeyId> {
    if n == 0 then Some(k)
    else
      match Ancestor(keys, k, n - 1)
      case None => None
      case Some(p) => if p in keys then keys[p].rotatedFrom else None
  }

  /** `a` is an earlier position in creation order than `b`. */
  ghost predicate Before(created: seq<KeyId>, a: KeyId, b: KeyId) {
    exists i, j :: 0 <= i < j < |created| && created[i] == a && created[j] == b
  }

  predicate HasParent(keys: Keys, k: KeyId, p: KeyId) { k in keys && keys[k].rotatedFrom == Some(p) }

  /** What every reachable key table satisfies. */
  ghost predicate LineageOk(keys: Keys, created: seq<KeyId>) {
    && (forall i :: 0 <= i < |created| ==> created[i] in keys)
    && (forall k :: k in keys ==> k in created && keys[k].rateLimit >= 1)
    && (forall i, j :: 0 <= i < j < |created| ==> created[i] != created[j])
    && (forall k, p :: HasParent(keys, k, p) ==>
          p in keys && Before(created, p, k) && !keys[p].status.Active? && Inherits(keys[p], keys[k]))
    && (forall k, l, p :: HasParent(keys, k, p) && HasParent(keys, l, p) ==> k == l)
  }

  lemma BeforeGrows(created: seq<KeyId>, a: KeyId, b: KeyId, k: KeyId)
    requires Before(created, a, b)
    ensures Before(created + [k], a, b)
  {
    var i, j :| 0 <= i < j < |created| && created[i] == a && created[j] == b;
    assert (created + [k])[i] == a && (created + [k])[j] == b;
  }

  lemma BeforeNewcomer(created: seq<KeyId>, a: KeyId, k: KeyId)
    requires a in created
    ensures Before(created + [k], a, k)
  {
    var i :| 0 <= i < |created| && created[i] == a;
    assert (created + [k])[i] == a && (created + [k])[|created|] == k;
  }

  lemma SameKeysKeepLineage(s: State, t: State)
    requires LineageOk(s.keys, s.created) && KeysMoved(s, t) && t.created == s.created
    ensures LineageOk(t.keys, t.created)
  {
    assert t.keys.Keys == s.keys.Keys by {
      assert forall id :: |s.created + [id]| == |s.created| + 1;
    }
    forall k, p | HasParent(t.keys, k, p)
      ensures p in t.keys && Before(t.created, p, k) && !t.keys[p].status.Active? && Inherits(t.keys[p], t.keys[k])
    {
      assert HasParent(s.keys, k, p);
    }
    forall k, l, p | HasParent(t.keys, k, p) && HasParent(t.keys, l, p) ensures k == l {
      assert HasParent(s.keys, k, p) && HasParent(s.keys, l, p);
    }
  }

  lemma NewcomerParents(s: State, t: State, id: KeyId, k: KeyId, p: KeyId)
    requires LineageOk(s.keys, s.created) && KeysMoved(s, t)
    requires Born(s.keys, t.keys, id) && t.keys.Keys == s.keys.Keys + {id} && t.created == s.created + [id]
    requires HasParent(t.keys, k, p)
    ensures p in t.keys && Before(t.created, p, k) && !t.keys[p].status.Active? && Inherits(t.keys[p], t.keys[k])
    ensures k != id ==> HasParent(s.keys, k, p)
    ensures k == id ==> s.keys[p].status.Active?
  {
    if k == id {
      BeforeNewcomer(s.created, p, id);
    } else {
      assert HasParent(s.keys, k, p);
      BeforeGrows(s.created, p, k, id);
    }
  }

  lemma NewcomerKeepsLineage(s: State, t: State, id: KeyId)
    requires LineageOk(s.keys, s.created) && KeysMoved(s, t)
    requires Born(s.keys, t.keys, id) && t.keys.Keys == s.keys.Keys + {id} && t.created == s.created + [id]
    ensures LineageOk(t.keys, t.created)
  {
    forall k, p | HasParent(t.keys, k, p)
      ensures p in t.keys && Before(t.created, p, k) && !t.keys[p].status.Active? && Inherits(t.keys[p], t.keys[k])
    {
      NewcomerParents(s, t, id, k, p);
    }
    forall k, l, p | HasParent(t.keys, k, p) && HasParent(t.keys, l, p) ensures k == l {
      NewcomerParents(s, t, id, k, p);
      NewcomerParents(s, t, id, l, p);
    }
    forall k | k in t.keys ensures k in t.created && t.keys[k].rateLimit >= 1 {
      if k == id {
        assert t.created[|s.created|] == id;
        if t.keys[id].rotatedFrom.Some? {
          assert s.keys[t.keys[id].rotatedFrom.value].rateLimit >= 1;
        }
      } else {
        assert s.keys[k].rateLimit >= 1;
      }
    }
  }

  lemma {:induction false} LineageHolds(cfg: Config, events: seq<Event>, lim: Limits)
    requires LegalRun(cfg, events, lim)
    ensures LineageOk(Run(cfg, events).keys, Run(cfg, events).created)
  {
    if events != [] {
      var s, e := Run(cfg, events[..|events| - 1]), events[|events| - 1];
      var t := Next(cfg, s, e);
      LineageHolds(cfg, events[..|events| - 1], lim);
      KeysMove(cfg, s, e, lim);
      if t.created == s.created {
        SameKeysKeepLineage(s, t);
      } else {
        var id :| Born(s.keys, t.keys, id) && t.keys.Keys == s.keys.Keys + {id} && t.created == s.created + [id];
        NewcomerKeepsLineage(s, t, id);
      }
    }
  }

  // ---- What the invariant means for whole lineages ----

  lemma {:induction false} AncestorIsEarlier(keys: Keys, created: seq<KeyId>, k: KeyId, n: nat)
    requires LineageOk(keys, created) && k in keys && n > 0 && Ancestor(keys, k, n).Some?
    ensures var a := Ancestor(keys, k, n).value; a in keys && Before(created, a, k) && Inherits(keys[a], keys[k])
  {
    var p := Ancestor(keys, k, n - 1).value;
    var a := Ancestor(keys, k, n).value;
    if n > 1 {
      AncestorIsEarlier(keys, created, k, n - 1);
      BeforeIsTransitive(created, a, p, k);
    }
    assert HasParent(keys, p, a);
  }

  lemma BeforeIsTransitive(created: seq<KeyId>, a: KeyId, b: KeyId, c: KeyId)
    requires forall i, j :: 0 <= i < j < |created| ==> created[i] != created[j]
    ensures Before(created, a, b) && Before(created, b, c) ==> Before(created, a, c)
  {
    if Before(created, a, b) && Before(created, b, c) {
      var i, j :| 0 <= i < j < |created| && created[i] == a && created[j] == b;
      var m, n :| 0 <= m < n < |created| && created[m] == b && created[n] == c;
      assert j == m;
    }
  }

  /** Two keys with a common ancestor: following both chains, the shorter one's key
      is an ancestor of the other, so it was rotated away. */
  lemma {:induction false} SharedAncestor(keys: Keys, x: KeyId, m: nat, y: KeyId, n: nat)
    requires Chains(keys) && x != y && m <= n
    requires Ancestor(keys, x, m).Some? && Ancestor(keys, x, m) == Ancestor(keys, y, n)
    ensures x in keys ==> !keys[x].status.Active?
  {
    if n > 0 {
      var a := Ancestor(keys, x, m).value;
      LastStep(keys, y, n);
      if m > 0 {
        LastStep(keys, x, m);
        SharedAncestor(keys, x, m - 1, y, n - 1);
      }
    }
  }

  /** Nobody has two replacements, and whoever has one is not active. */
  ghost predicate Chains(keys: Keys) {
    && (forall k, l, p :: HasParent(keys, k, p) && HasParent(keys, l, p) ==> k == l)
    && (forall k, p :: HasParent(keys, k, p) && p in keys ==> !keys[p].status.Active?)
  }

  lemma LastStep(keys: Keys, k: KeyId, n: nat)
    requires n > 0 && Ancestor(keys, k, n).Some?
    ensures Ancestor(keys, k, n - 1).Some? && HasParent(keys, Ancestor(keys, k, n - 1).value, Ancestor(keys, k, n).value)
  {
  }

  /** Every lineage of every run: no key is its own ancestor, an ancestor has the
      same tenant, scopes, rate limit and expiry, and of two keys with a common
      ancestor at most one is active. */
  lemma LineagesAreSound(cfg: Config, events: seq<Event>, lim: Limits, x: KeyId, m: nat, y: KeyId, n: nat)
    requires LegalRun(cfg, events, lim) && x in Run(cfg, events).keys && y in Run(cfg, events).keys
    ensures var keys := Run(cfg, events).keys;
            && (m > 0 ==> Ancestor(keys, x, m) != Some(x))
            && (Ancestor(keys, x, m) == Some(y) ==> Inherits(keys[y], keys[x]))
            && (Ancestor(keys, x, m).Some? && Ancestor(keys, x, m) == Ancestor(keys, y, n) && keys[x].status.Active? && keys[y].status.Active? ==> x == y)
  {
    var keys, created := Run(cfg, events).keys, Run(cfg, events).created;
    LineageHolds(cfg, events, lim);
    if m > 0 && Ancestor(keys, x, m).Some? {
      AncestorIsEarlier(keys, created, x, m);
    }
    if x != y && Ancestor(keys, x, m).Some? && Ancestor(keys, x, m) == Ancestor(keys, y, n) {
      if m <= n { SharedAncestor(keys, x, m, y, n); } else { SharedAncestor(keys, y, n, x, m); }
    }
  }
}
