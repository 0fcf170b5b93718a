/** Review grants: one row per access/refresh pair, linked by rotation (server/app/models.py, server/app/main.py). */
module ReviewGrants {
  import opened Common

  type Jti = nat
  type RefreshHash = nat

  datatype Role = Teacher | Observer

  datatype Grant = Grant(jti: Jti, session: string, role: Role, refreshHash: RefreshHash, expiresAt: int,
                         revokedAt: Option<int>, rotatedFrom: Option<Jti>)

  /** The table in insertion order. */
  type Table = seq<Grant>

  predicate Revoked(g: Grant) {
    g.revokedAt.Some?
  }

  predicate IsParent(parent: Grant, g: Grant) {
    g.rotatedFrom == Some(parent.jti)
  }

  /** The row `g` was rotated from is an earlier row of the same session and role. */
  predicate HasParentBefore(t: Table, i: nat)
    requires i < |t|
  {
    t[i].rotatedFrom.Some? ==>
      exists p :: 0 <= p < i && IsParent(t[p], t[i]) && t[p].session == t[i].session && t[p].role == t[i].role
  }

  /** What the primary key, the unique columns and the foreign key of the table keep. */
  predicate Forest(t: Table) {
    && (forall i, j :: 0 <= i < j < |t| ==> t[i].jti != t[j].jti && t[i].refreshHash != t[j].refreshHash)
    && (forall i, j :: 0 <= i < j < |t| && t[i].rotatedFrom.Some? ==> t[i].rotatedFrom != t[j].rotatedFrom)
    && (forall i :: 0 <= i < |t| ==> HasParentBefore(t, i))
  }

  function Parent(t: Table, i: nat): (p: nat)
    requires Forest(t) && i < |t| && t[i].rotatedFrom.Some?
    ensures p < i && IsParent(t[p], t[i]) && t[p].session == t[i].session && t[p].role == t[i].role
    ensures forall q :: 0 <= q < |t| && IsParent(t[q], t[i]) ==> q == p
  {
    assert HasParentBefore(t, i);
    var p :| 0 <= p < i && IsParent(t[p], t[i]) && t[p].session == t[i].session && t[p].role == t[i].role;
    p
  }

  /** The login a grant descends from. */
  function Root(t: Table, i: nat): (r: nat)
    requires Forest(t) && i < |t|
    ensures r <= i && t[r].rotatedFrom.None? && t[r].session == t[i].session && t[r].role == t[i].role
    decreases i
  {
    if t[i].rotatedFrom.None? then i else Root(t, Parent(t, i))
  }

  predicate SameChain(t: Table, i: nat, j: nat)
    requires Forest(t) && i < |t| && j < |t|
  {
    Root(t, i) == Root(t, j)
  }

  predicate HasJti(t: Table, jti: Jti) {
    exists i :: 0 <= i < |t| && t[i].jti == jti
  }

  function IndexOf(t: Table, jti: Jti): (i: nat)
    requires Forest(t) && HasJti(t, jti)
    ensures i < |t| && t[i].jti == jti
    ensures forall k :: 0 <= k < |t| && t[k].jti == jti ==> k == i
  {
    var i :| 0 <= i < |t| && t[i].jti == jti;
    i
  }

  /** How many rotations lie between a grant and its login. */
  function Depth(t: Table, i: nat): nat
    requires Forest(t) && i < |t|
    decreases i
  {
    if t[i].rotatedFrom.None? then 0 else Depth(t, Parent(t, i)) + 1
  }

  /** Chains are linear: two grants of one chain at the same depth are one grant. */
  lemma {:induction false} ChainsAreLinear(t: Table, i: nat, j: nat)
    requires Forest(t) && i < |t| && j < |t| && SameChain(t, i, j) && Depth(t, i) == Depth(t, j)
    ensures i == j
    decreases i
  {
    if t[i].rotatedFrom.Some? {
      ChainsAreLinear(t, Parent(t, i), Parent(t, j));
    }
  }

  // ------------------------------------------------------------ revocation

  function Revoke(g: Grant, now: int): Grant {
    if g.revokedAt.Some? then g else g.(revokedAt := Some(now))
  }

  function AfterRevokeChain(t: Table, jti: Jti, now: int): (r: Table)
    requires Forest(t)
    ensures |r| == |t|
  {
    if !HasJti(t, jti) then t
    else
      var start := IndexOf(t, jti);
      seq(|t|, i requires 0 <= i < |t| => if SameChain(t, i, start) then Revoke(t[i], now) else t[i])
  }

  function AfterRevokeAll(t: Table, session: string, now: int): (r: Table)
    ensures |r| == |t|
  {
    seq(|t|, i requires 0 <= i < |t| => if t[i].session == session then Revoke(t[i], now) else t[i])
  }

  /** What a revocation of one chain reads as still live. */
  function LiveChain(t: Table, jti: Jti): (rows: set<nat>)
    requires Forest(t)
  {
    set i: nat | i < |t| && HasJti(t, jti) && SameChain(t, i, IndexOf(t, jti)) && !Revoked(t[i])
  }

  /** What a revocation of a whole session reads as still live. */
  function LiveSession(t: Table, session: string): (rows: set<nat>) {
    set i: nat | i < |t| && t[i].session == session && !Revoked(t[i])
  }

  /** The UPDATE at the flush: it marks the rows that were read, whatever the table holds by then. */
  function Marked(t: Table, rows: set<nat>, now: int): (r: Table)
    ensures |r| == |t|
  {
    seq(|t|, i requires 0 <= i < |t| => if i in rows then t[i].(revokedAt := Some(now)) else t[i])
  }

  /** With nothing in between, read and write revoke exactly the chain and keep earlier times. */
  lemma UndisturbedChain(t: Table, jti: Jti, now: int)
    requires Forest(t)
    ensures Marked(t, LiveChain(t, jti), now) == AfterRevokeChain(t, jti, now)
  {
  }

  lemma UndisturbedSession(t: Table, session: string, now: int)
    ensures Marked(t, LiveSession(t, session), now) == AfterRevokeAll(t, session, now)
  {
  }

  /** `children.get(jti, [])` */
  function Under(children: map<Jti, seq<nat>>, jti: Jti): seq<nat> {
    if jti in children then children[jti] else []
  }

  predicate Belongs(t: Table, n: nat, session: string, j: Jti, k: nat)
    requires n <= |t|
  {
    k < n && t[k].session == session && t[k].rotatedFrom == Some(j)
  }

  /** `children` holds the first `n` rows of the session, each under the jti it was rotated from. */
  ghost predicate Indexes(children: map<Jti, seq<nat>>, t: Table, n: nat, session: string)
    requires n <= |t|
  {
    && (forall j: Jti, k: nat :: k in Under(children, j) ==> Belongs(t, n, session, j, k))
    && (forall k: nat :: k < n && t[k].session == session && t[k].rotatedFrom.Some? ==>
          k in Under(children, t[k].rotatedFrom.value))
  }

  lemma IndexRow(children: map<Jti, seq<nat>>, t: Table, n: nat, session: string)
    requires n < |t| && Indexes(children, t, n, session)
    ensures t[n].session != session || t[n].rotatedFrom.None? ==> Indexes(children, t, n + 1, session)
    ensures t[n].session == session && t[n].rotatedFrom.Some? ==>
      Indexes(children[t[n].rotatedFrom.value := Under(children, t[n].rotatedFrom.value) + [n]], t, n + 1, session)
  {
    if t[n].session == session && t[n].rotatedFrom.Some? {
      var from := t[n].rotatedFrom.value;
      var next := children[from := Under(children, from) + [n]];
      forall j: Jti, k: nat | k in Under(next, j)
        ensures Belongs(t, n + 1, session, j, k)
      {
        if j == from {
          assert k in Under(children, from) || k == n;
        } else {
          assert k in Under(children, j);
        }
      }
      forall k: nat | k < n + 1 && t[k].session == session && t[k].rotatedFrom.Some?
        ensures k in Under(next, t[k].rotatedFrom.value)
      {
        if k < n {
          assert k in Under(children, t[k].rotatedFrom.value);
        }
      }
    }
  }

  lemma NothingIndexed(t: Table, session: string)
    ensures Indexes(map[], t, 0, session)
  {
    forall j: Jti, k: nat ensures k !in Under(map[], j) {
      var empty: map<Jti, seq<nat>> := map[];
      assert j !in empty;
    }
  }

  class GrantTable {
    var grants: Table

    constructor ()
      ensures grants == []
    {
      grants := [];
    }

    method Get(jti: Jti) returns (found: Option<nat>)
      requires Forest(grants)
      ensures found.Some? <==> HasJti(grants, jti)
      ensures found.Some? ==> found.value == IndexOf(grants, jti)
    {
      for i := 0 to |grants|
        invariant forall k :: 0 <= k < i ==> grants[k].jti != jti
      {
        if grants[i].jti == jti {
          return Some(i);
        }
      }
      found := None;
    }

    /** The walk from a grant to the login it descends from. */
    method FindRoot(start: nat) returns (root: nat)
      requires Forest(grants) && start < |grants|
      ensures root == Root(grants, start)
    {
      root := start;
      var guard: set<Jti> := {};
      while grants[root].rotatedFrom.Some? && grants[root].rotatedFrom.value !in guard
        invariant root <= start && Root(grants, root) == Root(grants, start)
        invariant forall k :: 0 <= k <= root ==> grants[k].jti !in guard
        decreases root
      {
        var child := root;
        guard := guard + {grants[child].jti};
        var parent := Get(grants[child].rotatedFrom.value);
        var p := Parent(grants, child);
        assert grants[p].jti == grants[child].rotatedFrom.value;
        if parent.None? || grants[parent.value].session != grants[start].session {
          break;
        }
        root := parent.value;
      }
    }

    /** `children`: the rows of one session under the jti they were rotated from. */
    method ChildIndex(session: string) returns (children: map<Jti, seq<nat>>)
      ensures Indexes(children, grants, |grants|, session)
    {
      children := map[];
      NothingIndexed(grants, session);
      for i := 0 to |grants|
        invariant Indexes(children, grants, i, session)
      {
        IndexRow(children, grants, i, session);
        if grants[i].session == session && grants[i].rotatedFrom.Some? {
          var from := grants[i].rotatedFrom.value;
          children := children[from := Under(children, from) + [i]];
        }
      }
    }

    /** The worklist: every grant reached from `root`, each once. */
    method Descendants(root: nat) returns (ordered: seq<nat>)
      requires Forest(grants) && root < |grants| && grants[root].rotatedFrom.None?
      ensures forall k :: k in ordered <==> 0 <= k < |grants| && Root(grants, k) == root
      ensures Distinct(ordered)
    {
      var children := ChildIndex(grants[root].session);
      ordered := [];
      var stack: seq<nat> := [root];
      var seen: set<Jti> := {};
      while stack != []
        invariant Visiting(grants, root, stack, seen, ordered)
        invariant |ordered| <= |grants|
        decreases |grants| - |ordered|, |stack|
      {
        var node := stack[|stack| - 1];
        assert node in stack;
        if grants[node].jti in seen {
          PopSeen(grants, root, stack, seen, ordered);
          stack := stack[..|stack| - 1];
        } else {
          var next := Under(children, grants[node].jti);
          ChildrenAreIndexed(grants, node, children, next);
          PopNew(grants, root, stack, seen, ordered, next);
          stack := stack[..|stack| - 1] + next;
          seen := seen + {grants[node].jti};
          ordered := ordered + [node];
          DistinctFits(grants, root, stack, seen, ordered);
        }
      }
      forall k | 0 <= k < |grants| && Root(grants, k) == root ensures k in ordered {
        ClosureCoversChain(grants, ordered, k);
      }
    }

    /** `revoke_review_chain` up to the flush: the chain, and its rows that are read as live. */
    method ReadChain(jti: Jti) returns (chain: seq<nat>, live: set<nat>)
      requires Forest(grants)
      ensures forall k :: k in chain <==>
        HasJti(grants, jti) && 0 <= k < |grants| && SameChain(grants, k, IndexOf(grants, jti))
      ensures Distinct(chain)
      ensures live == LiveChain(grants, jti)
    {
      live := {};
      var start := Get(jti);
      if start.None? {
        return [], {};
      }
      var root := FindRoot(start.value);
      chain := Descendants(root);
      for n := 0 to |chain|
        invariant live == set k | k in chain[..n] && k < |grants| && !Revoked(grants[k])
      {
        var k := chain[n];
        assert k in chain;
        assert chain[..n + 1] == chain[..n] + [k];
        if grants[k].revokedAt.None? {
          live := live + {k};
        }
      }
      assert chain[..|chain|] == chain;
    }

    /** `revoke_all_review_grants` up to the flush. */
    method ReadSession(session: string) returns (live: set<nat>, revoked: seq<Jti>)
      ensures live == LiveSession(grants, session)
      ensures forall j :: j in revoked <==> exists k :: k in live && grants[k].jti == j
    {
      live, revoked := {}, [];
      for i := 0 to |grants|
        invariant live == set k: nat | k < i && grants[k].session == session && !Revoked(grants[k])
        invariant forall j :: j in revoked <==> exists k :: k in live && grants[k].jti == j
      {
        if grants[i].session == session && grants[i].revokedAt.None? {
          ghost var before := live;
          live := live + {i};
          revoked := revoked + [grants[i].jti];
          assert forall k :: k in live <==> k in before || k == i;
        }
      }
    }

    /** The flush of either revocation. */
    method WriteMarks(rows: set<nat>, now: int)
      modifies this
      ensures grants == Marked(old(grants), rows, now)
    {
      for i := 0 to |grants|
        invariant |grants| == |old(grants)|
        invariant forall k :: 0 <= k < i ==> grants[k] == Marked(old(grants), rows, now)[k]
        invariant forall k :: i <= k < |grants| ==> grants[k] == old(grants)[k]
      {
        if i in rows {
          grants := grants[i := grants[i].(revokedAt := Some(now))];
        }
      }
    }

    /** A logout that nothing disturbs. */
    method RevokeChain(jti: Jti, now: int) returns (revoked: seq<nat>)
      requires Forest(grants)
      modifies this
      ensures grants == AfterRevokeChain(old(grants), jti, now)
      ensures forall k :: k in revoked <==>
        HasJti(old(grants), jti) && 0 <= k < |grants| && SameChain(old(grants), k, IndexOf(old(grants), jti))
      ensures Distinct(revoked)
    {
      UndisturbedChain(grants, jti, now);
      var live: set<nat>;
      revoked, live := ReadChain(jti);
      WriteMarks(live, now);
    }

    /** A revocation by the operator that nothing disturbs. */
    method RevokeAll(session: string, now: int) returns (revoked: seq<Jti>)
      modifies this
      ensures grants == AfterRevokeAll(old(grants), session, now)
      ensures forall j :: j in revoked <==>
        exists k: nat :: k in LiveSession(old(grants), session) && old(grants)[k].jti == j
    {
      UndisturbedSession(grants, session, now);
      var live: set<nat>;
      live, revoked := ReadSession(session);
      WriteMarks(live, now);
    }
  }

  // ------------------------------------------------------------ the worklist visits the chain

  predicate Distinct(s: seq<nat>) {
    forall i, j :: 0 <= i < j < |s| ==> s[i] != s[j]
  }

  predicate InChain(t: Table, root: nat, k: nat)
    requires Forest(t)
  {
    k < |t| && Root(t, k) == root
  }

  /** Every row rotated from a visited one has been visited or is still on the stack. */
  predicate Closed(t: Table, visited: seq<nat>, stack: seq<nat>) {
    forall p, c :: 0 <= p < |t| && 0 <= c < |t| && p in visited && IsParent(t[p], t[c]) ==> c in visited || c in stack
  }

  predicate Visiting(t: Table, root: nat, stack: seq<nat>, seen: set<Jti>, ordered: seq<nat>)
    requires Forest(t)
  {
    && Distinct(ordered) && Closed(t, ordered, stack) && (root in ordered || root in stack)
    && (forall k :: k in ordered ==> InChain(t, root, k))
    && (forall k :: k in stack ==> InChain(t, root, k))
    && (forall k :: 0 <= k < |t| ==> (t[k].jti in seen <==> k in ordered))
  }

  lemma DistinctFits(t: Table, root: nat, stack: seq<nat>, seen: set<Jti>, ordered: seq<nat>)
    requires Forest(t) && Visiting(t, root, stack, seen, ordered)
    ensures |ordered| <= |t|
  {
    var visited := Members(ordered);
    DistinctSize(ordered);
    BelowSize(|t|);
    assert visited <= Below(|t|) by {
      forall k | k in visited ensures k in Below(|t|) {
        assert InChain(t, root, k);
      }
    }
    SubsetSize(visited, Below(|t|));
  }

  function Members(s: seq<nat>): (r: set<nat>)
    ensures forall k :: k in r <==> k in s
  {
    set k | k in s
  }

  lemma {:induction false} DistinctSize(s: seq<nat>)
    requires Distinct(s)
    ensures |Members(s)| == |s|
  {
    if s != [] {
      var front, last := s[..|s| - 1], s[|s| - 1];
      DistinctSize(front);
      assert s == front + [last] && last !in front;
      assert Members(s) == Members(front) + {last};
    }
  }

  lemma PopSeen(t: Table, root: nat, stack: seq<nat>, seen: set<Jti>, ordered: seq<nat>)
    requires Forest(t) && Visiting(t, root, stack, seen, ordered) && stack != []
    requires stack[|stack| - 1] < |t| && t[stack[|stack| - 1]].jti in seen
    ensures Visiting(t, root, stack[..|stack| - 1], seen, ordered)
  {
    var rest := stack[..|stack| - 1];
    assert forall k :: k in stack ==> k == stack[|stack| - 1] || k in rest;
  }

  lemma PopNew(t: Table, root: nat, stack: seq<nat>, seen: set<Jti>, ordered: seq<nat>, next: seq<nat>)
    requires Forest(t) && Visiting(t, root, stack, seen, ordered) && stack != []
    requires stack[|stack| - 1] < |t| && t[stack[|stack| - 1]].jti !in seen
    requires forall k: nat :: k in next <==> k < |t| && IsParent(t[stack[|stack| - 1]], t[k])
    ensures var node := stack[|stack| - 1];
      Visiting(t, root, stack[..|stack| - 1] + next, seen + {t[node].jti}, ordered + [node])
  {
    var rest, node := stack[..|stack| - 1], stack[|stack| - 1];
    assert node in stack && InChain(t, root, node);
    assert forall k :: k in stack ==> k == node || k in rest;
    forall k | k in next ensures InChain(t, root, k) {
      assert Parent(t, k) == node;
    }
  }

  lemma ChildrenAreIndexed(t: Table, node: nat, children: map<Jti, seq<nat>>, next: seq<nat>)
    requires Forest(t) && node < |t| && Indexes(children, t, |t|, t[node].session) && next == Under(children, t[node].jti)
    ensures forall k: nat :: k in next <==> k < |t| && IsParent(t[node], t[k])
  {
    forall k: nat | k < |t| && IsParent(t[node], t[k]) ensures k in next {
      assert Parent(t, k) == node;
    }
    forall k: nat | k in next ensures k < |t| && IsParent(t[node], t[k]) {
      assert Belongs(t, |t|, t[node].session, t[node].jti, k);
    }
  }

  lemma {:induction false} ClosureCoversChain(t: Table, visited: seq<nat>, k: nat)
    requires Forest(t) && k < |t| && Closed(t, visited, []) && Root(t, k) in visited
    ensures k in visited
    decreases k
  {
    if t[k].rotatedFrom.Some? {
      ClosureCoversChain(t, visited, Parent(t, k));
    }
  }
}
