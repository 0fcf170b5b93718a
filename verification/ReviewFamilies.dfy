/** Every interleaving of review logins, refreshes, logouts and revocations (server/app/main.py). */
module ReviewFamilies {
  import opened Common
  import opened ReviewGrants

  /** A revocation that has read the table and not yet flushed: the rows it read as live, and how many there were. */
  datatype Sweep = Sweep(rows: set<nat>, seen: nat)

  /**
   * `looked`: grants whose refresh passed the checks of `review_refresh` and has not been written yet.
   * `sweeps`: the revocations under way.
   */
  datatype World = World(grants: Table, looked: set<Jti>, sweeps: map<nat, Sweep>)

  const Start := World([], {}, map[])

  datatype Lookup = InvalidToken | RevokedToken | Reused(index: nat) | ExpiredToken | MayMint(index: nat)

  /**
   * No read of these routes takes a write lock. A refresh is therefore two steps, its checks and the
   * insert that commits, and a revocation is two as well, its SELECT and the UPDATE of its flush. A
   * logout is ReadChain and WriteMarks, the operator's revocation ReadSession and WriteMarks; a reused
   * token starts one at once, under the given id. A revocation may also end in a rollback.
   */
  datatype Step =
    | Login(grant: Grant)
    | LookUp(id: nat, session: string, hash: RefreshHash, now: int)
    | Commit(id: nat, parent: Jti, jti: Jti, hash: RefreshHash, expiresAt: int)
    | ReadChain(id: nat, jti: Jti)
    | ReadSession(id: nat, session: string)
    | WriteMarks(id: nat, now: int)
    | RollBack(id: nat)

  predicate HasHash(t: Table, hash: RefreshHash) {
    exists i :: 0 <= i < |t| && t[i].refreshHash == hash
  }

  function IndexOfHash(t: Table, hash: RefreshHash): (i: nat)
    requires Forest(t) && HasHash(t, hash)
    ensures i < |t| && t[i].refreshHash == hash
  {
    var i :| 0 <= i < |t| && t[i].refreshHash == hash;
    i
  }

  /** Some grant was already minted from this one. */
  predicate HasSuccessor(t: Table, jti: Jti) {
    exists k :: 0 <= k < |t| && t[k].rotatedFrom == Some(jti)
  }

  /** The checks of `review_refresh`, in their order: reuse wins over expiry. */
  function Check(t: Table, session: string, hash: RefreshHash, now: int): (r: Lookup)
    requires Forest(t)
    ensures r.Reused? || r.MayMint? ==>
      r.index < |t| && t[r.index].refreshHash == hash && !Revoked(t[r.index])
    ensures r.Reused? ==> HasSuccessor(t, t[r.index].jti)
    ensures r.MayMint? ==> !HasSuccessor(t, t[r.index].jti) && now < t[r.index].expiresAt
  {
    if !HasHash(t, hash) then InvalidToken
    else
      var i := IndexOfHash(t, hash);
      if t[i].session != session then InvalidToken
      else if Revoked(t[i]) then RevokedToken
      else if HasSuccessor(t, t[i].jti) then Reused(i)
      else if t[i].expiresAt <= now then ExpiredToken
      else MayMint(i)
  }

  predicate Unused(t: Table, jti: Jti, hash: RefreshHash) {
    !HasJti(t, jti) && !HasHash(t, hash)
  }

  predicate Enabled(w: World, step: Step) {
    match step
    case Login(g) => Unused(w.grants, g.jti, g.refreshHash) && g.rotatedFrom.None? && !Revoked(g)
    case LookUp(id, _, _, _) => id !in w.sweeps
    case Commit(id, parent, jti, hash, _) => parent in w.looked && Unused(w.grants, jti, hash) && id !in w.sweeps
    case ReadChain(id, _) => id !in w.sweeps
    case ReadSession(id, _) => id !in w.sweeps
    case WriteMarks(id, _) => id in w.sweeps
    case RollBack(id) => id in w.sweeps
  }

  function Minted(t: Table, parent: Jti, jti: Jti, hash: RefreshHash, expiresAt: int): Grant
    requires Forest(t) && HasJti(t, parent)
  {
    var p := t[IndexOf(t, parent)];
    Grant(jti, p.session, p.role, hash, expiresAt, None, Some(parent))
  }

  /** A sweep took whole chains: every row of them that it saw is marked or in its list. */
  predicate SweepOk(t: Table, s: Sweep)
    requires Forest(t)
  {
    && s.seen <= |t| && (forall i :: i in s.rows ==> i < s.seen)
    && forall i, k :: i in s.rows && 0 <= k < s.seen && SameChain(t, k, i) ==> k in s.rows || Revoked(t[k])
  }

  predicate Inv(w: World) {
    && Forest(w.grants) && (forall j :: j in w.looked ==> HasJti(w.grants, j))
    && forall id :: id in w.sweeps ==> SweepOk(w.grants, w.sweeps[id])
  }

  function ChainSweep(t: Table, jti: Jti): Sweep
    requires Forest(t)
  {
    Sweep(LiveChain(t, jti), |t|)
  }

  /** The insert; when `rotated_from` is taken the unique index refuses it and the family is to be revoked. */
  function AfterCommit(w: World, id: nat, parent: Jti, jti: Jti, hash: RefreshHash, expiresAt: int): World
    requires Forest(w.grants) && HasJti(w.grants, parent)
  {
    if HasSuccessor(w.grants, parent) then w.(sweeps := w.sweeps[id := ChainSweep(w.grants, parent)])
    else w.(grants := w.grants + [Minted(w.grants, parent, jti, hash, expiresAt)])
  }

  function AfterLookUp(w: World, id: nat, session: string, hash: RefreshHash, now: int): World
    requires Forest(w.grants)
  {
    match Check(w.grants, session, hash, now)
    case MayMint(i) => w.(looked := w.looked + {w.grants[i].jti})
    case Reused(i) => w.(sweeps := w.sweeps[id := ChainSweep(w.grants, w.grants[i].jti)])
    case _ => w
  }

  function Do(w: World, step: Step): World
    requires Inv(w) && Enabled(w, step)
  {
    match step
    case Login(g) => w.(grants := w.grants + [g])
    case LookUp(id, session, hash, now) => AfterLookUp(w, id, session, hash, now)
    case Commit(id, parent, jti, hash, expiresAt) => AfterCommit(w, id, parent, jti, hash, expiresAt)
    case ReadChain(id, jti) => w.(sweeps := w.sweeps[id := ChainSweep(w.grants, jti)])
    case ReadSession(id, session) => w.(sweeps := w.sweeps[id := Sweep(LiveSession(w.grants, session), |w.grants|)])
    case WriteMarks(id, now) => w.(grants := Marked(w.grants, w.sweeps[id].rows, now), sweeps := w.sweeps - {id})
    case RollBack(id) => w.(sweeps := w.sweeps - {id})
  }

  // ------------------------------------------------------------ shape

  /** Only revocation marks differ. */
  predicate SameShape(t: Table, u: Table) {
    |u| == |t| && forall i :: 0 <= i < |t| ==> u[i].(revokedAt := None) == t[i].(revokedAt := None)
  }

  lemma ShapeKeepsForest(t: Table, u: Table)
    requires Forest(t) && SameShape(t, u)
    ensures Forest(u)
  {
    assert forall i :: 0 <= i < |t| ==>
      u[i].jti == t[i].jti && u[i].rotatedFrom == t[i].rotatedFrom && u[i].refreshHash == t[i].refreshHash
      && u[i].session == t[i].session && u[i].role == t[i].role;
    forall i | 0 <= i < |u| ensures HasParentBefore(u, i) {
      if u[i].rotatedFrom.Some? {
        var p := Parent(t, i);
        assert IsParent(u[p], u[i]);
      }
    }
  }

  lemma {:induction false} ShapeKeepsRoot(t: Table, u: Table, i: nat)
    requires Forest(t) && Forest(u) && SameShape(t, u) && i < |t|
    ensures Root(u, i) == Root(t, i)
    decreases i
  {
    assert u[i].rotatedFrom == t[i].rotatedFrom;
    if t[i].rotatedFrom.Some? {
      var p := Parent(t, i);
      assert u[p].jti == t[p].jti && IsParent(u[p], u[i]);
      ShapeKeepsRoot(t, u, p);
    }
  }

  predicate MayAppend(t: Table, g: Grant)
    requires Forest(t)
  {
    && Unused(t, g.jti, g.refreshHash)
    && (g.rotatedFrom.Some? ==>
          && HasJti(t, g.rotatedFrom.value) && !HasSuccessor(t, g.rotatedFrom.value)
          && g.session == t[IndexOf(t, g.rotatedFrom.value)].session
          && g.role == t[IndexOf(t, g.rotatedFrom.value)].role)
  }

  lemma AppendKeepsForest(t: Table, g: Grant)
    requires Forest(t) && MayAppend(t, g)
    ensures Forest(t + [g])
  {
    var u := t + [g];
    forall i | 0 <= i < |u| ensures HasParentBefore(u, i) {
      if i < |t| && t[i].rotatedFrom.Some? {
        var p := Parent(t, i);
        assert IsParent(u[p], u[i]);
      } else if i == |t| && g.rotatedFrom.Some? {
        var p := IndexOf(t, g.rotatedFrom.value);
        assert IsParent(u[p], u[i]);
      }
    }
  }

  lemma {:induction false} AppendKeepsRoot(t: Table, g: Grant, i: nat)
    requires Forest(t) && Forest(t + [g]) && i < |t|
    ensures Root(t + [g], i) == Root(t, i)
    decreases i
  {
    var u := t + [g];
    if t[i].rotatedFrom.Some? {
      var p := Parent(t, i);
      assert IsParent(u[p], u[i]);
      AppendKeepsRoot(t, g, p);
    }
  }

  lemma AppendedRoot(t: Table, g: Grant)
    requires Forest(t) && MayAppend(t, g) && Forest(t + [g])
    ensures g.rotatedFrom.Some? ==> Root(t + [g], |t|) == Root(t, IndexOf(t, g.rotatedFrom.value))
    ensures g.rotatedFrom.None? ==> Root(t + [g], |t|) == |t|
  {
    if g.rotatedFrom.Some? {
      var p := IndexOf(t, g.rotatedFrom.value);
      assert IsParent((t + [g])[p], (t + [g])[|t|]);
      AppendKeepsRoot(t, g, p);
    }
  }

  lemma HasJtiGrows(t: Table, u: Table, jti: Jti)
    requires HasJti(t, jti) && |t| <= |u| && forall i :: 0 <= i < |t| ==> u[i].jti == t[i].jti
    ensures HasJti(u, jti)
  {
    var i :| 0 <= i < |t| && t[i].jti == jti;
    assert u[i].jti == jti;
  }

  /** A sweep that reads now is complete. */
  lemma FreshSweepOk(t: Table, jti: Jti, session: string)
    requires Forest(t)
    ensures SweepOk(t, ChainSweep(t, jti))
    ensures SweepOk(t, Sweep(LiveSession(t, session), |t|))
  {
    forall i, k | 0 <= i < |t| && 0 <= k < |t| && SameChain(t, k, i) ensures t[i].session == t[k].session {
      assert t[Root(t, i)].session == t[i].session && t[Root(t, k)].session == t[k].session;
    }
  }

  /** A step only marks rows, or appends one that the unique columns accept. */
  lemma StepShape(w: World, step: Step)
    requires Inv(w) && Enabled(w, step)
    ensures var t, u := w.grants, Do(w, step).grants;
      SameShape(t, u) || (|u| == |t| + 1 && u == t + [u[|t|]] && MayAppend(t, u[|t|]) && !Revoked(u[|t|]))
    ensures Do(w, step).looked == w.looked
      || (step.LookUp? && exists i :: 0 <= i < |w.grants| && Do(w, step).looked == w.looked + {w.grants[i].jti})
    ensures forall k :: 0 <= k < |w.grants| && Revoked(w.grants[k]) ==>
      |w.grants| <= |Do(w, step).grants| && Revoked(Do(w, step).grants[k])
  {
    hide Root, LiveChain, LiveSession;
  }

  /** A revocation under way keeps what it read; a new one has just read the table. */
  lemma StepReads(w: World, step: Step)
    requires Inv(w) && Enabled(w, step)
    ensures forall id :: id in Do(w, step).sweeps ==>
      || (id in w.sweeps && Do(w, step).sweeps[id] == w.sweeps[id])
      || (Do(w, step).grants == w.grants && SweepOk(w.grants, Do(w, step).sweeps[id]))
    ensures forall id :: id in w.sweeps && step != RollBack(id) && !(step.WriteMarks? && step.id == id) ==>
      id in Do(w, step).sweeps && Do(w, step).sweeps[id] == w.sweeps[id]
  {
    match step
    case LookUp(_, session, hash, now) =>
      if Check(w.grants, session, hash, now).Reused? {
        FreshSweepOk(w.grants, w.grants[Check(w.grants, session, hash, now).index].jti, "");
      }
    case Commit(_, parent, _, _, _) => FreshSweepOk(w.grants, parent, "");
    case ReadChain(_, jti) => FreshSweepOk(w.grants, jti, "");
    case ReadSession(_, session) => FreshSweepOk(w.grants, 0, session);
    case _ =>
    hide SweepOk, ChainSweep, LiveSession, Check;
  }

  /** Roots stay, so a sweep that took whole chains still has all it saw of them. */
  lemma SweepStaysOk(t: Table, u: Table, s: Sweep)
    requires Forest(t) && Forest(u) && SweepOk(t, s) && |t| <= |u|
    requires forall k :: 0 <= k < |t| ==> Root(u, k) == Root(t, k) && (Revoked(t[k]) ==> Revoked(u[k]))
    ensures SweepOk(u, s)
  {
    forall i, k | i in s.rows && 0 <= k < s.seen && SameChain(u, k, i) ensures k in s.rows || Revoked(u[k]) {
      assert SameChain(t, k, i);
    }
  }

  /** The rotation relation stays a set of acyclic, linear chains, whatever interleaves. */
  lemma StepKeepsForest(w: World, step: Step)
    requires Inv(w) && Enabled(w, step)
    ensures Inv(Do(w, step))
    ensures |w.grants| <= |Do(w, step).grants|
    ensures forall i :: 0 <= i < |w.grants| ==>
      Do(w, step).grants[i].jti == w.grants[i].jti && Root(Do(w, step).grants, i) == Root(w.grants, i)
  {
    StepShape(w, step);
    StepReads(w, step);
    hide Do, Enabled, MayAppend, SweepOk;
    var t, after := w.grants, Do(w, step);
    var u := after.grants;
    if |u| == |t| {
      ShapeKeepsForest(t, u);
      assert forall i :: 0 <= i < |t| ==> u[i].(revokedAt := None).jti == t[i].(revokedAt := None).jti;
      forall i | 0 <= i < |t| ensures Root(u, i) == Root(t, i) {
        ShapeKeepsRoot(t, u, i);
      }
    } else {
      AppendKeepsForest(t, u[|t|]);
      forall i | 0 <= i < |t| ensures Root(u, i) == Root(t, i) {
        AppendKeepsRoot(t, u[|t|], i);
      }
    }
    forall j | j in after.looked ensures HasJti(u, j) {
      HasJtiGrows(t, u, j);
    }
    forall id | id in after.sweeps ensures SweepOk(u, after.sweeps[id]) {
      SweepStaysOk(t, u, if id in w.sweeps && after.sweeps[id] == w.sweeps[id] then w.sweeps[id] else after.sweeps[id]);
    }
  }

  // ------------------------------------------------------------ uniform revocation

  predicate Uniform(t: Table)
    requires Forest(t)
  {
    forall i, j :: 0 <= i < |t| && 0 <= j < |t| && SameChain(t, i, j) ==> Revoked(t[i]) == Revoked(t[j])
  }

  /** A refresh that passed its checks before its grant was revoked, and inserts after. */
  predicate LateCommit(w: World, step: Step)
    requires Inv(w)
  {
    step.Commit? && HasJti(w.grants, step.parent) && !HasSuccessor(w.grants, step.parent)
    && Revoked(w.grants[IndexOf(w.grants, step.parent)])
  }

  /** A live grant that joined, after the sweep's read, a chain the sweep is about to mark. */
  predicate Missed(t: Table, s: Sweep, k: nat)
    requires Forest(t) && SweepOk(t, s) && k < |t|
  {
    s.seen <= k && !Revoked(t[k]) && exists i :: i in s.rows && SameChain(t, k, i)
  }

  /** A revocation that writes although a refresh inserted between its read and its write. */
  predicate StaleWrite(w: World, step: Step)
    requires Inv(w)
  {
    && step.WriteMarks? && step.id in w.sweeps
    && exists k: nat :: k < |w.grants| && Missed(w.grants, w.sweeps[step.id], k)
  }

  lemma MarkKeepsShape(t: Table, rows: set<nat>, now: int)
    requires Forest(t)
    ensures SameShape(t, Marked(t, rows, now)) && Forest(Marked(t, rows, now))
    ensures forall k :: 0 <= k < |t| ==> Root(Marked(t, rows, now), k) == Root(t, k)
  {
    var u := Marked(t, rows, now);
    ShapeKeepsForest(t, u);
    forall k | 0 <= k < |t| ensures Root(u, k) == Root(t, k) {
      ShapeKeepsRoot(t, u, k);
    }
  }

  lemma MissedIsNotUniform(t: Table, s: Sweep, k: nat, now: int)
    requires Forest(t) && SweepOk(t, s) && k < |t| && Missed(t, s, k)
    ensures Forest(Marked(t, s.rows, now)) && !Uniform(Marked(t, s.rows, now))
  {
    hide Root;
    var u := Marked(t, s.rows, now);
    MarkKeepsShape(t, s.rows, now);
    var i :| i in s.rows && SameChain(t, k, i);
    assert SameChain(u, k, i) && Revoked(u[i]) && !Revoked(u[k]);
  }

  lemma NothingMissedIsUniform(t: Table, s: Sweep, now: int)
    requires Forest(t) && Uniform(t) && SweepOk(t, s)
    requires forall k: nat :: k < |t| ==> !Missed(t, s, k)
    ensures Forest(Marked(t, s.rows, now)) && Uniform(Marked(t, s.rows, now))
  {
    hide Root;
    var u := Marked(t, s.rows, now);
    MarkKeepsShape(t, s.rows, now);
    forall i, k | 0 <= i < |u| && 0 <= k < |u| && SameChain(u, i, k) && Revoked(u[i]) ensures Revoked(u[k]) {
      assert SameChain(t, k, i) && Revoked(t[i]) == Revoked(t[k]);
      assert !Missed(t, s, k);
    }
    forall i, k | 0 <= i < |u| && 0 <= k < |u| && SameChain(u, i, k) ensures Revoked(u[i]) == Revoked(u[k]) {
      assert SameChain(u, k, i);
    }
  }

  /** Marking a sweep's rows leaves the chains uniform exactly when it missed no live grant of them. */
  lemma MarkUniformExactly(t: Table, s: Sweep, now: int)
    requires Forest(t) && Uniform(t) && SweepOk(t, s)
    ensures Forest(Marked(t, s.rows, now))
    ensures Uniform(Marked(t, s.rows, now)) <==> forall k: nat :: k < |t| ==> !Missed(t, s, k)
  {
    hide Uniform, Missed, Marked, SweepOk;
    if k: nat :| k < |t| && Missed(t, s, k) {
      MissedIsNotUniform(t, s, k, now);
    } else {
      NothingMissedIsUniform(t, s, now);
    }
  }

  /** A live row joins a chain: the chain stays uniform exactly when its parent is live. */
  lemma AppendUniformExactly(t: Table, g: Grant)
    requires Forest(t) && Uniform(t) && MayAppend(t, g) && !Revoked(g)
    ensures Forest(t + [g])
    ensures Uniform(t + [g]) <==> g.rotatedFrom.None? || !Revoked(t[IndexOf(t, g.rotatedFrom.value)])
  {
    var u := t + [g];
    AppendKeepsForest(t, g);
    AppendedRoot(t, g);
    forall i | 0 <= i < |t| ensures Root(u, i) == Root(t, i) {
      AppendKeepsRoot(t, g, i);
    }
    if g.rotatedFrom.Some? {
      var p := IndexOf(t, g.rotatedFrom.value);
      assert SameChain(u, p, |t|) && u[p] == t[p];
    }
    if g.rotatedFrom.None? || !Revoked(t[IndexOf(t, g.rotatedFrom.value)]) {
      forall i, j | 0 <= i < |u| && 0 <= j < |u| && SameChain(u, i, j) ensures Revoked(u[i]) == Revoked(u[j]) {
        if i < |t| && j < |t| {
          assert SameChain(t, i, j);
        } else if i < |t| || j < |t| {
          var k := if i < |t| then i else j;
          assert Root(u, k) == Root(u, |t|);
          assert g.rotatedFrom.Some? ==> SameChain(t, k, IndexOf(t, g.rotatedFrom.value));
        }
      }
    }
  }

  /** The two ways to lose a race: an insert after the revocation, and a revocation that read before the insert. */
  predicate Races(w: World, step: Step)
    requires Inv(w)
  {
    LateCommit(w, step) || StaleWrite(w, step)
  }

  /** Steps that neither append nor mark. */
  predicate OnlyReads(w: World, step: Step) {
    || step.LookUp? || step.ReadChain? || step.ReadSession? || step.RollBack?
    || (step.Commit? && HasSuccessor(w.grants, step.parent))
  }

  lemma ReadsChangeNothing(w: World, step: Step)
    requires Inv(w) && Enabled(w, step) && OnlyReads(w, step)
    ensures Do(w, step).grants == w.grants && !Races(w, step)
  {
    hide Root, LiveChain, LiveSession, SweepOk, Revoked;
  }

  /** A step breaks uniform revocation exactly when it loses such a race. */
  lemma StepUniformExactly(w: World, step: Step)
    requires Inv(w) && Enabled(w, step) && Uniform(w.grants)
    ensures Inv(Do(w, step))
    ensures Uniform(Do(w, step).grants) <==> !Races(w, step)
  {
    hide Marked, Uniform, Check, Root, LiveChain, LiveSession, Missed, SweepOk;
    StepKeepsForest(w, step);
    if OnlyReads(w, step) {
      ReadsChangeNothing(w, step);
    } else if step.WriteMarks? {
      MarkUniformExactly(w.grants, w.sweeps[step.id], step.now);
    } else {
      AppendsUniformExactly(w, step);
    }
  }

  lemma AppendsUniformExactly(w: World, step: Step)
    requires Inv(w) && Enabled(w, step) && Uniform(w.grants) && (step.Login? || step.Commit?) && !OnlyReads(w, step)
    ensures Forest(Do(w, step).grants)
    ensures Uniform(Do(w, step).grants) <==> !Races(w, step)
  {
    hide Uniform, Root, SweepOk;
    if step.Login? {
      AppendUniformExactly(w.grants, step.grant);
    } else {
      AppendUniformExactly(w.grants, Minted(w.grants, step.parent, step.jti, step.hash, step.expiresAt));
    }
  }

  predicate PossibleRun(w: World, steps: seq<Step>)
    requires Inv(w)
    decreases |steps|
  {
    steps == [] ||
    (Enabled(w, steps[0]) && (StepKeepsForest(w, steps[0]); PossibleRun(Do(w, steps[0]), steps[1..])))
  }

  function AfterRun(w: World, steps: seq<Step>): (r: World)
    requires Inv(w) && PossibleRun(w, steps)
    ensures Inv(r)
    decreases |steps|
  {
    if steps == [] then w
    else
      StepKeepsForest(w, steps[0]);
      AfterRun(Do(w, steps[0]), steps[1..])
  }

  /** Every state of the run has uniform chains. */
  predicate UniformThroughout(w: World, steps: seq<Step>)
    requires Inv(w) && PossibleRun(w, steps)
    decreases |steps|
  {
    Uniform(w.grants) &&
    (steps != [] ==> (StepKeepsForest(w, steps[0]); UniformThroughout(Do(w, steps[0]), steps[1..])))
  }

  /** Every insert finds its parent live, and no refresh inserts between a revocation's read and its write. */
  predicate NoRace(w: World, steps: seq<Step>)
    requires Inv(w) && PossibleRun(w, steps)
    decreases |steps|
  {
    steps != [] ==> !Races(w, steps[0]) && (StepKeepsForest(w, steps[0]); NoRace(Do(w, steps[0]), steps[1..]))
  }

  /** Revocation is uniform along every chain in every state of a run exactly when no step lost a race. */
  lemma {:induction false} UniformExactly(w: World, steps: seq<Step>)
    requires Inv(w) && PossibleRun(w, steps) && Uniform(w.grants)
    ensures UniformThroughout(w, steps) <==> NoRace(w, steps)
    decreases |steps|
  {
    hide Uniform, Do, Races, Enabled, Inv;
    if steps != [] {
      StepUniformExactly(w, steps[0]);
      if !Races(w, steps[0]) {
        UniformExactly(Do(w, steps[0]), steps[1..]);
      } else if |steps| > 1 {
        assert !UniformThroughout(Do(w, steps[0]), steps[1..]);
      }
    }
  }

  // ------------------------------------------------------------ who may mint

  /** A grant without a successor is the deepest of its chain. */
  lemma {:induction false} NoSuccessorIsNewest(t: Table, p: nat, k: nat)
    requires Forest(t) && p < |t| && k < |t| && SameChain(t, k, p) && !HasSuccessor(t, t[p].jti)
    ensures Depth(t, k) <= Depth(t, p)
    decreases k
  {
    if t[k].rotatedFrom.Some? {
      var up := Parent(t, k);
      NoSuccessorIsNewest(t, p, up);
      if Depth(t, up) == Depth(t, p) {
        ChainsAreLinear(t, up, p);
      }
    }
  }

  /** A step that mints from a grant finds it to be the newest of its chain. */
  lemma OnlyTheNewestMints(w: World, step: Step)
    requires Inv(w) && Enabled(w, step) && |Do(w, step).grants| > |w.grants|
    requires Do(w, step).grants[|w.grants|].rotatedFrom.Some?
    ensures var from := Do(w, step).grants[|w.grants|].rotatedFrom.value;
      && HasJti(w.grants, from)
      && forall k :: 0 <= k < |w.grants| && SameChain(w.grants, k, IndexOf(w.grants, from)) ==>
           Depth(w.grants, k) <= Depth(w.grants, IndexOf(w.grants, from))
  {
    StepShape(w, step);
    hide Do, Enabled;
    var t := w.grants;
    var p := IndexOf(t, Do(w, step).grants[|t|].rotatedFrom.value);
    forall k | 0 <= k < |t| && SameChain(t, k, p) ensures Depth(t, k) <= Depth(t, p) {
      NoSuccessorIsNewest(t, p, k);
    }
  }

  // ------------------------------------------------------------ a revoked family

  predicate Dead(t: Table, i: nat)
    requires Forest(t) && i < |t|
  {
    forall k :: 0 <= k < |t| && SameChain(t, k, i) ==> Revoked(t[k])
  }

  predicate Untouched(steps: seq<Step>, id: nat) {
    forall n :: 0 <= n < |steps| ==> steps[n] != RollBack(id) && !(steps[n].WriteMarks? && steps[n].id == id)
  }

  /** What a revocation read is still what it will write, and rows and roots stay. */
  lemma {:induction false} SweepIsKept(w: World, steps: seq<Step>, id: nat)
    requires Inv(w) && PossibleRun(w, steps) && id in w.sweeps && Untouched(steps, id)
    ensures var after := AfterRun(w, steps);
      && id in after.sweeps && after.sweeps[id] == w.sweeps[id] && |w.grants| <= |after.grants|
      && forall k :: 0 <= k < |w.grants| ==> Root(after.grants, k) == Root(w.grants, k)
    decreases |steps|
  {
    hide Inv, Do, Enabled, Root;
    if steps != [] {
      StepKeepsForest(w, steps[0]);
      KeepsSweep(w, steps[0], id);
      SweepIsKept(Do(w, steps[0]), steps[1..], id);
    }
  }

  lemma KeepsSweep(w: World, step: Step, id: nat)
    requires Inv(w) && Enabled(w, step) && id in w.sweeps && step != RollBack(id) && !(step.WriteMarks? && step.id == id)
    ensures id in Do(w, step).sweeps && Do(w, step).sweeps[id] == w.sweeps[id]
  {
    StepReads(w, step);
    hide Do, Enabled;
  }

  /** The write of a chain's sweep kills the chain exactly when no live grant joined it since the read. */
  lemma WriteKillsExactly(t: Table, s: Sweep, i: nat, now: int)
    requires Forest(t) && SweepOk(t, s) && i in s.rows
    ensures Forest(Marked(t, s.rows, now))
    ensures Dead(Marked(t, s.rows, now), i)
      <==> forall k :: s.seen <= k < |t| && SameChain(t, k, i) ==> Revoked(t[k])
  {
    var u := Marked(t, s.rows, now);
    MarkKeepsShape(t, s.rows, now);
    forall k | 0 <= k < |t| ensures SameChain(u, k, i) == SameChain(t, k, i) {
    }
    forall k | s.seen <= k < |t| ensures u[k] == t[k] {
    }
  }

  /**
   * Presenting a refresh token that was already exchanged starts a revocation of its family. Once that
   * revocation writes, whatever ran in between, the whole family is revoked if and only if no refresh
   * had inserted a grant into it since the read that is still live.
   */
  lemma ReuseKillsTheFamily(w: World, id: nat, session: string, hash: RefreshHash, now: int, steps: seq<Step>,
                            later: int)
    requires Inv(w) && id !in w.sweeps && Check(w.grants, session, hash, now).Reused?
    requires Inv(Do(w, LookUp(id, session, hash, now))) && PossibleRun(Do(w, LookUp(id, session, hash, now)), steps)
    requires Untouched(steps, id)
    ensures var i := Check(w.grants, session, hash, now).index;
      var before := AfterRun(Do(w, LookUp(id, session, hash, now)), steps);
      && Enabled(before, WriteMarks(id, later)) && Inv(Do(before, WriteMarks(id, later)))
      && i < |w.grants| <= |before.grants| == |Do(before, WriteMarks(id, later)).grants|
      && (Dead(Do(before, WriteMarks(id, later)).grants, i) <==>
            forall k :: |w.grants| <= k < |before.grants| && SameChain(before.grants, k, i) ==>
              Revoked(before.grants[k]))
  {
    var i := Check(w.grants, session, hash, now).index;
    var t := w.grants;
    assert HasJti(t, t[i].jti) && IndexOf(t, t[i].jti) == i;
    var asked := Do(w, LookUp(id, session, hash, now));
    assert asked.sweeps[id] == ChainSweep(t, t[i].jti) && i in asked.sweeps[id].rows;
    SweepIsKept(asked, steps, id);
    var before := AfterRun(asked, steps);
    StepKeepsForest(before, WriteMarks(id, later));
    hide Root, LiveChain;
    WriteKillsExactly(before.grants, before.sweeps[id], i, later);
  }

  /** A step puts a live grant into a dead family exactly when it is a late commit into that family. */
  lemma DeadFamilyRevivesExactly(w: World, step: Step, i: nat)
    requires Inv(w) && Enabled(w, step) && i < |w.grants| && Dead(w.grants, i)
    ensures Inv(Do(w, step)) && i < |Do(w, step).grants|
    ensures Dead(Do(w, step).grants, i)
      <==> !(LateCommit(w, step) && SameChain(w.grants, IndexOf(w.grants, step.parent), i))
  {
    StepShape(w, step);
    StepKeepsForest(w, step);
    CommitShape(w, step);
    hide Do, Enabled;
    var t, u := w.grants, Do(w, step).grants;
    if SameShape(t, u) {
      forall k | 0 <= k < |t| ensures Root(u, k) == Root(t, k) {
        ShapeKeepsRoot(t, u, k);
      }
    } else {
      forall k | 0 <= k < |t| ensures Root(u, k) == Root(t, k) && u[k] == t[k] {
        AppendKeepsRoot(t, u[|t|], k);
      }
      AppendedRoot(t, u[|t|]);
      assert Dead(u, i) <==> !SameChain(u, |t|, i);
    }
  }

  lemma CommitShape(w: World, step: Step)
    requires Inv(w) && Enabled(w, step)
    ensures var t, u := w.grants, Do(w, step).grants;
      (|u| > |t| && u[|t|].rotatedFrom.Some?)
        <==> (step.Commit? && !HasSuccessor(t, step.parent))
    ensures var t, u := w.grants, Do(w, step).grants;
      step.Commit? && !HasSuccessor(t, step.parent) ==>
        HasJti(t, step.parent) && |u| > |t| && u[|t|].rotatedFrom == Some(step.parent)
  {
  }

  /** Checks and insert in one transaction are never late: such a refresh leaves every chain uniform. */
  lemma AtomicRefreshIsNeverLate(w: World, id: nat, session: string, hash: RefreshHash, now: int, jti: Jti,
                                 newHash: RefreshHash, expiresAt: int)
    requires Inv(w) && id !in w.sweeps && Check(w.grants, session, hash, now).MayMint?
    ensures var looked := Do(w, LookUp(id, session, hash, now));
      var parent := w.grants[Check(w.grants, session, hash, now).index].jti;
      Inv(looked) && !LateCommit(looked, Commit(id, parent, jti, newHash, expiresAt))
  {
    StepKeepsForest(w, LookUp(id, session, hash, now));
    var i := Check(w.grants, session, hash, now).index;
    assert IndexOf(w.grants, w.grants[i].jti) == i;
  }

  lemma ReadIsNotStale(w: World, id: nat, s: Sweep, now: int)
    requires Inv(w) && SweepOk(w.grants, s) && s.seen == |w.grants|
    ensures var read := w.(sweeps := w.sweeps[id := s]);
      && Inv(read) && Enabled(read, WriteMarks(id, now)) && !StaleWrite(read, WriteMarks(id, now))
      && Do(read, WriteMarks(id, now)).grants == Marked(w.grants, s.rows, now)
  {
    hide Root, Marked;
  }

  /** Read and write in one transaction miss nothing, and revoke exactly the chain or the session. */
  lemma AtomicRevocationMissesNothing(w: World, id: nat, jti: Jti, session: string, now: int)
    requires Inv(w) && id !in w.sweeps
    ensures var chain, all := Do(w, ReadChain(id, jti)), Do(w, ReadSession(id, session));
      && Inv(chain) && Inv(all)
      && !StaleWrite(chain, WriteMarks(id, now)) && !StaleWrite(all, WriteMarks(id, now))
      && Do(chain, WriteMarks(id, now)).grants == AfterRevokeChain(w.grants, jti, now)
      && Do(all, WriteMarks(id, now)).grants == AfterRevokeAll(w.grants, session, now)
  {
    FreshSweepOk(w.grants, jti, session);
    UndisturbedChain(w.grants, jti, now);
    UndisturbedSession(w.grants, session, now);
    hide Root, LiveChain, LiveSession, Marked, AfterRevokeChain, AfterRevokeAll, SweepOk, StaleWrite;
    ReadIsNotStale(w, id, ChainSweep(w.grants, jti), now);
    ReadIsNotStale(w, id, Sweep(LiveSession(w.grants, session), |w.grants|), now);
  }

  // ------------------------------------------------------------ the two races

  const LoginGrant := Grant(1, "s", Teacher, 1, 100, None, None)
  const LoggedOut := LoginGrant.(revokedAt := Some(5))
  const LateChild := Grant(2, "s", Teacher, 2, 200, None, Some(1))
  const LogoutSweep := Sweep({0}, 1)

  lemma LoginStep()
    ensures Inv(Start) && Enabled(Start, Login(LoginGrant)) && Inv(World([LoginGrant], {}, map[]))
    ensures Do(Start, Login(LoginGrant)) == World([LoginGrant], {}, map[])
  {
  }

  lemma LookUpStep()
    ensures var w := World([LoginGrant], {}, map[]);
      Inv(w) && Enabled(w, LookUp(9, "s", 1, 4)) && Do(w, LookUp(9, "s", 1, 4)) == World([LoginGrant], {1}, map[])
    ensures Inv(World([LoginGrant], {1}, map[]))
  {
    var w := World([LoginGrant], {}, map[]);
    assert HasHash(w.grants, 1) by { assert w.grants[0].refreshHash == 1; }
    assert Check(w.grants, "s", 1, 4) == MayMint(0);
    assert HasJti(w.grants, 1) by { assert w.grants[0].jti == 1; }
  }

  lemma LogoutReads()
    ensures var w := World([LoginGrant], {1}, map[]);
      Inv(w) && Enabled(w, ReadChain(0, 1)) && Do(w, ReadChain(0, 1)) == World([LoginGrant], {1}, map[0 := LogoutSweep])
    ensures Inv(World([LoginGrant], {1}, map[0 := LogoutSweep]))
  {
    var w := World([LoginGrant], {1}, map[]);
    assert HasJti(w.grants, 1) by { assert w.grants[0].jti == 1; }
    assert IndexOf(w.grants, 1) == 0;
    assert LiveChain(w.grants, 1) == {0};
    StepKeepsForest(w, ReadChain(0, 1));
  }

  lemma LogoutWrites(rest: Table)
    requires rest == [] || rest == [LateChild]
    requires Inv(World([LoginGrant] + rest, {1}, map[0 := LogoutSweep]))
    ensures var w := World([LoginGrant] + rest, {1}, map[0 := LogoutSweep]);
      Enabled(w, WriteMarks(0, 5)) && Do(w, WriteMarks(0, 5)) == World([LoggedOut] + rest, {1}, map[])
    ensures Inv(World([LoggedOut] + rest, {1}, map[]))
  {
    var w := World([LoginGrant] + rest, {1}, map[0 := LogoutSweep]);
    assert Marked(w.grants, {0}, 5) == [LoggedOut] + rest;
    assert map[0 := LogoutSweep] - {0} == map[];
    StepKeepsForest(w, WriteMarks(0, 5));
  }

  lemma RefreshInserts(first: Grant, sweeps: map<nat, Sweep>)
    requires first == LoginGrant || first == LoggedOut
    requires 1 !in sweeps && Inv(World([first], {1}, sweeps))
    ensures var w, step := World([first], {1}, sweeps), Commit(1, 1, 2, 2, 200);
      Enabled(w, step) && Do(w, step) == World([first, LateChild], {1}, sweeps)
    ensures Inv(World([first, LateChild], {1}, sweeps))
  {
    var w, step := World([first], {1}, sweeps), Commit(1, 1, 2, 2, 200);
    assert HasJti(w.grants, 1) by { assert w.grants[0].jti == 1; }
    assert IndexOf(w.grants, 1) == 0;
    StepKeepsForest(w, step);
  }

  lemma SplitFamily()
    requires Forest([LoggedOut, LateChild])
    ensures !Uniform([LoggedOut, LateChild])
  {
    var t := [LoggedOut, LateChild];
    assert IsParent(t[0], t[1]);
    assert SameChain(t, 0, 1);
  }

  /** A logout between the checks and the insert of a refresh leaves a live grant in a revoked family. */
  lemma RefreshOutlivesLogout()
    ensures exists steps :: PossibleRun(Start, steps) && !Uniform(AfterRun(Start, steps).grants)
  {
    hide Do, Enabled, Inv, Uniform, LateCommit;
    LoginStep();
    LookUpStep();
    LogoutReads();
    assert [LoginGrant] + [] == [LoginGrant] && [LoggedOut] + [] == [LoggedOut];
    LogoutWrites([]);
    RefreshInserts(LoggedOut, map[]);
    SplitFamily();
    var tail := [WriteMarks(0, 5)] + ([Commit(1, 1, 2, 2, 200)] + []);
    Prepend(World([LoggedOut], {1}, map[]), Commit(1, 1, 2, 2, 200), []);
    Prepend(World([LoginGrant], {1}, map[0 := LogoutSweep]), WriteMarks(0, 5), [Commit(1, 1, 2, 2, 200)] + []);
    AsksThenReads(tail);
  }

  lemma ParentIsLive()
    requires Inv(World([LoginGrant], {1}, map[0 := LogoutSweep]))
    ensures !LateCommit(World([LoginGrant], {1}, map[0 := LogoutSweep]), Commit(1, 1, 2, 2, 200))
  {
  }

  /** So does a refresh between the read and the write of a logout, though its parent is live when it inserts. */
  lemma LogoutMissesARefresh()
    ensures exists steps :: PossibleRun(Start, steps) && !Uniform(AfterRun(Start, steps).grants)
    ensures var w := World([LoginGrant], {1}, map[0 := LogoutSweep]);
      Inv(w) && !LateCommit(w, Commit(1, 1, 2, 2, 200))
  {
    hide Do, Enabled, Inv, Uniform, LateCommit;
    LoginStep();
    LookUpStep();
    LogoutReads();
    RefreshInserts(LoginGrant, map[0 := LogoutSweep]);
    assert [LoginGrant] + [LateChild] == [LoginGrant, LateChild] && [LoggedOut] + [LateChild] == [LoggedOut, LateChild];
    LogoutWrites([LateChild]);
    SplitFamily();
    ParentIsLive();
    var tail := [Commit(1, 1, 2, 2, 200)] + ([WriteMarks(0, 5)] + []);
    Prepend(World([LoginGrant, LateChild], {1}, map[0 := LogoutSweep]), WriteMarks(0, 5), []);
    Prepend(World([LoginGrant], {1}, map[0 := LogoutSweep]), Commit(1, 1, 2, 2, 200), [WriteMarks(0, 5)] + []);
    AsksThenReads(tail);
  }

  /** Both races begin alike: a login, the checks of a refresh, the read of a logout. */
  lemma AsksThenReads(tail: seq<Step>)
    requires Inv(World([LoginGrant], {1}, map[0 := LogoutSweep]))
    requires PossibleRun(World([LoginGrant], {1}, map[0 := LogoutSweep]), tail)
    requires Inv(Start)
    ensures var steps := [Login(LoginGrant)] + ([LookUp(9, "s", 1, 4)] + ([ReadChain(0, 1)] + tail));
      && PossibleRun(Start, steps)
      && AfterRun(Start, steps) == AfterRun(World([LoginGrant], {1}, map[0 := LogoutSweep]), tail)
  {
    hide Do, Enabled, Inv;
    LoginStep();
    LookUpStep();
    LogoutReads();
    Prepend(World([LoginGrant], {1}, map[]), ReadChain(0, 1), tail);
    Prepend(World([LoginGrant], {}, map[]), LookUp(9, "s", 1, 4), [ReadChain(0, 1)] + tail);
    Prepend(Start, Login(LoginGrant), [LookUp(9, "s", 1, 4)] + ([ReadChain(0, 1)] + tail));
  }

  lemma Prepend(w: World, step: Step, rest: seq<Step>)
    requires Inv(w) && Enabled(w, step) && Inv(Do(w, step)) && PossibleRun(Do(w, step), rest)
    ensures PossibleRun(w, [step] + rest)
    ensures AfterRun(w, [step] + rest) == AfterRun(Do(w, step), rest)
  {
    hide Inv, Enabled, Do;
    assert ([step] + rest)[1..] == rest;
  }
}
