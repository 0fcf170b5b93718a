/** Every interleaving of redemptions and reissues of one session's join codes. */
module JoinCodeRuns {
  import opened Common
  import opened JoinCodes

  /**
   * `looked` are redemptions between their SELECT and their UPDATE. `used` are all hashes ever current,
   * `replaced` those a reissue replaced, `killed` those of the roles at a reissue that revoked live tokens.
   */
  datatype World = World(codes: Codes, issued: seq<Issued>, revoked: set<Token>, looked: set<Seen>,
                         used: set<Hash>, replaced: set<Hash>, killed: set<Hash>)

  datatype Step =
    | LookUp(role: Role, hash: Hash)
    | Claim(seen: Seen, token: Token)
    | Reissue(read: map<Role, Option<Hash>>, next: map<Role, Hash>, revokeLive: bool)

  predicate DistinctHashes(codes: Codes) {
    forall r, s :: r in codes && s in codes && r != s ==> codes[r].hash != codes[s].hash
  }

  /** Codes as `issue_join_codes` writes them. */
  predicate IsStart(w: World) {
    && DistinctHashes(w.codes) && (forall r :: r in w.codes ==> !w.codes[r].consumed && w.codes[r].hash in w.used)
    && w.issued == [] && w.looked == {} && w.replaced == {} && w.killed == {}
  }

  predicate FreshHashes(w: World, next: map<Role, Hash>) {
    && (forall r :: r in next ==> next[r] !in w.used)
    && (forall r, s :: r in next && s in next && r != s ==> next[r] != next[s])
  }

  /** A redemption's SELECT; a reissue commits one transaction, guarded on the hashes it read earlier. */
  predicate Enabled(w: World, step: Step) {
    match step
    case LookUp(_, _) => true
    case Claim(seen, _) => seen in w.looked
    case Reissue(read, next, _) => next.Keys == read.Keys && FreshHashes(w, next)
  }

  /** Every guarded UPDATE of the reissue matches. */
  predicate ReissueMatches(w: World, read: map<Role, Option<Hash>>) {
    forall r :: r in read ==> Current(w.codes, r) == read[r]
  }

  function OldHashes(w: World, read: map<Role, Option<Hash>>): set<Hash> {
    set r | r in read && r in w.codes :: w.codes[r].hash
  }

  /** The codes that issued tokens to these roles so far. */
  function CodesOf(issued: seq<Issued>, roles: set<Role>): (hashes: set<Hash>)
    ensures forall h :: h in hashes ==> exists i :: 0 <= i < |issued| && issued[i].role in roles && issued[i].code == h
    ensures forall i :: 0 <= i < |issued| && issued[i].role in roles ==> issued[i].code in hashes
  {
    set i | 0 <= i < |issued| && issued[i].role in roles :: issued[i].code
  }

  function AfterReissue(w: World, read: map<Role, Option<Hash>>, next: map<Role, Hash>, revokeLive: bool): World {
    if !ReissueMatches(w, read) then w
    else
      var gone := OldHashes(w, read);
      w.(codes := w.codes + (map r | r in next :: Code(next[r], false)),
         used := w.used + next.Values,
         replaced := w.replaced + gone,
         revoked := if revokeLive then w.revoked + TokensOf(w.issued, read.Keys) else w.revoked,
         killed := if revokeLive then w.killed + gone + CodesOf(w.issued, read.Keys) else w.killed)
  }

  function AfterLookUp(w: World, role: Role, hash: Hash): World {
    if !Holds(w.codes, role, hash) || (w.codes[role].consumed && !Reusable(role)) then w
    else w.(looked := w.looked + {Seen(role, hash, w.codes[role].consumed)})
  }

  function AfterClaim(w: World, seen: Seen, token: Token): World {
    if !ClaimMatches(w.codes, seen) then w
    else
      w.(codes := w.codes[seen.role := Code(seen.hash, true)],
         issued := w.issued + [Issued(seen.role, token, seen.hash)])
  }

  function Do(w: World, step: Step): World
    requires Enabled(w, step)
  {
    match step
    case LookUp(role, hash) => AfterLookUp(w, role, hash)
    case Claim(seen, token) => AfterClaim(w, seen, token)
    case Reissue(read, next, revokeLive) => AfterReissue(w, read, next, revokeLive)
  }

  predicate PossibleRun(w: World, steps: seq<Step>)
    decreases |steps|
  {
    steps == [] || (Enabled(w, steps[0]) && PossibleRun(Do(w, steps[0]), steps[1..]))
  }

  function AfterRun(w: World, steps: seq<Step>): World
    requires PossibleRun(w, steps)
    decreases |steps|
  {
    if steps == [] then w else AfterRun(Do(w, steps[0]), steps[1..])
  }

  // ------------------------------------------------------------ the invariant

  /** A one-time code has issued one token at most. */
  predicate OneTime(issued: seq<Issued>) {
    forall i, j :: 0 <= i < j < |issued| && !Reusable(issued[i].role) ==> issued[i].code != issued[j].code
  }

  predicate OneRole(issued: seq<Issued>) {
    forall i, j :: 0 <= i < |issued| && 0 <= j < |issued| && issued[i].code == issued[j].code ==>
      issued[i].role == issued[j].role
  }

  /** A token from a current code went to that code's role, and the code shows it. */
  predicate IssuedOk(w: World, row: Issued) {
    && row.code in w.used
    && (row.code in w.killed ==> row.token in w.revoked)
    && (row.code in w.replaced || Holds(w.codes, row.role, row.code))
    && forall r :: r in w.codes && w.codes[r].hash == row.code ==> r == row.role && w.codes[r].consumed
  }

  predicate CodeOk(w: World, role: Role)
    requires role in w.codes
  {
    w.codes[role].hash in w.used && w.codes[role].hash !in w.replaced
  }

  predicate Inv(w: World) {
    && DistinctHashes(w.codes) && OneTime(w.issued) && OneRole(w.issued)
    && (forall r :: r in w.codes ==> CodeOk(w, r))
    && (forall i :: 0 <= i < |w.issued| ==> IssuedOk(w, w.issued[i]))
    && (forall s :: s in w.looked && s.consumed ==> Reusable(s.role))
    && w.replaced <= w.used && w.killed <= w.replaced
  }

  lemma LookUpKeeps(w: World, role: Role, hash: Hash)
    requires Inv(w)
    ensures Inv(AfterLookUp(w, role, hash))
  {
    var after := AfterLookUp(w, role, hash);
    forall i | 0 <= i < |w.issued| ensures IssuedOk(after, after.issued[i]) {
      assert IssuedOk(w, w.issued[i]);
    }
    forall r | r in after.codes ensures CodeOk(after, r) {
      assert CodeOk(w, r);
    }
  }

  lemma ClaimKeeps(w: World, seen: Seen, token: Token)
    requires Inv(w) && seen in w.looked
    ensures Inv(AfterClaim(w, seen, token))
  {
    var after := AfterClaim(w, seen, token);
    if ClaimMatches(w.codes, seen) {
      assert CodeOk(w, seen.role);
      forall r | r in after.codes ensures CodeOk(after, r) {
        assert CodeOk(w, r);
      }
      forall i | 0 <= i < |after.issued| ensures IssuedOk(after, after.issued[i]) {
        if i < |w.issued| {
          assert IssuedOk(w, w.issued[i]);
        }
      }
      forall i | 0 <= i < |w.issued| && w.issued[i].code == seen.hash
        ensures w.issued[i].role == seen.role && Reusable(seen.role)
      {
        assert IssuedOk(w, w.issued[i]);
      }
    }
  }

  /** The new codes are unlike every code before them, so nothing in flight can claim one. */
  lemma ReissueKeeps(w: World, read: map<Role, Option<Hash>>, next: map<Role, Hash>, revokeLive: bool)
    requires Inv(w) && Enabled(w, Reissue(read, next, revokeLive))
    ensures Inv(AfterReissue(w, read, next, revokeLive))
  {
    var after := AfterReissue(w, read, next, revokeLive);
    if ReissueMatches(w, read) {
      forall r | r in after.codes ensures CodeOk(after, r) {
        if r in next {
          assert next[r] in next.Values;
        } else {
          assert CodeOk(w, r);
          assert w.codes[r].hash !in OldHashes(w, read);
        }
      }
      forall i | 0 <= i < |w.issued| ensures IssuedOk(after, w.issued[i]) {
        ReissueKeepsIssued(w, read, next, revokeLive, i);
      }
      forall h | h in CodesOf(w.issued, read.Keys) ensures h in after.replaced {
        var i :| 0 <= i < |w.issued| && w.issued[i].role in read.Keys && w.issued[i].code == h;
        assert IssuedOk(w, w.issued[i]);
      }
      forall h | h in OldHashes(w, read) ensures h in w.used {
        var r :| r in read && r in w.codes && w.codes[r].hash == h;
        assert CodeOk(w, r);
      }
    }
  }

  lemma ReissueKeepsIssued(w: World, read: map<Role, Option<Hash>>, next: map<Role, Hash>, revokeLive: bool, i: nat)
    requires Inv(w) && Enabled(w, Reissue(read, next, revokeLive)) && ReissueMatches(w, read) && i < |w.issued|
    ensures IssuedOk(AfterReissue(w, read, next, revokeLive), w.issued[i])
  {
    var after, row := AfterReissue(w, read, next, revokeLive), w.issued[i];
    assert IssuedOk(w, row);
    if revokeLive && row.code in OldHashes(w, read) {
      var r :| r in read && r in w.codes && w.codes[r].hash == row.code;
      assert r == row.role;
    }
    if revokeLive && row.code in CodesOf(w.issued, read.Keys) {
      var j :| 0 <= j < |w.issued| && w.issued[j].role in read.Keys && w.issued[j].code == row.code;
      assert IssuedOk(w, w.issued[j]);
      assert row.role == w.issued[j].role;
    }
  }

  lemma StepKeeps(w: World, step: Step)
    requires Inv(w) && Enabled(w, step)
    ensures Inv(Do(w, step))
    ensures w.replaced <= Do(w, step).replaced && w.issued <= Do(w, step).issued
  {
    hide Inv;
    match step
    case LookUp(role, hash) => LookUpKeeps(w, role, hash);
    case Claim(seen, token) => ClaimKeeps(w, seen, token);
    case Reissue(read, next, revokeLive) => ReissueKeeps(w, read, next, revokeLive);
  }

  lemma {:induction false} EveryRunKeeps(w: World, steps: seq<Step>)
    requires Inv(w) && PossibleRun(w, steps)
    ensures Inv(AfterRun(w, steps))
    decreases |steps|
  {
    hide Inv, Enabled, Do;
    if steps != [] {
      StepKeeps(w, steps[0]);
      EveryRunKeeps(Do(w, steps[0]), steps[1..]);
    }
  }

  /** A student or wizard code is redeemed at most once, however redemptions and reissues interleave. */
  lemma OneTimeCodesAreConsumedOnce(start: World, steps: seq<Step>)
    requires IsStart(start) && PossibleRun(start, steps)
    ensures var issued := AfterRun(start, steps).issued;
      forall i, j :: 0 <= i < j < |issued| && issued[i].role in {Student, Wizard} ==> issued[i].code != issued[j].code
  {
    EveryRunKeeps(start, steps);
  }

  /** Once a reissue that replaced a code has committed, that code never issues a token again. */
  lemma {:induction false} ReplacedCodesNeverSucceed(w: World, steps: seq<Step>)
    requires Inv(w) && PossibleRun(w, steps)
    ensures var issued := AfterRun(w, steps).issued;
      w.issued <= issued && forall i :: |w.issued| <= i < |issued| ==> issued[i].code !in w.replaced
    decreases |steps|
  {
    hide Enabled, PossibleRun;
    if steps != [] {
      RunUnfolds(w, steps);
      StepKeeps(w, steps[0]);
      ClaimedIsCurrent(w, steps[0]);
      hide Do, Inv;
      ReplacedCodesNeverSucceed(Do(w, steps[0]), steps[1..]);
    }
  }

  lemma RunUnfolds(w: World, steps: seq<Step>)
    requires PossibleRun(w, steps) && steps != []
    ensures Enabled(w, steps[0]) && PossibleRun(Do(w, steps[0]), steps[1..])
    ensures AfterRun(w, steps) == AfterRun(Do(w, steps[0]), steps[1..])
  {
  }

  lemma ClaimedIsCurrent(w: World, step: Step)
    requires Inv(w) && Enabled(w, step)
    ensures var after := Do(w, step).issued;
      forall i :: |w.issued| <= i < |after| ==> after[i].code !in w.replaced
  {
    if step.Claim? && ClaimMatches(w.codes, step.seen) {
      assert CodeOk(w, step.seen.role);
    }
  }

  /** A new code starts unconsumed, whatever joined meanwhile, and one redemption of it then succeeds. */
  lemma NewCodesStartUnconsumed(w: World, read: map<Role, Option<Hash>>, next: map<Role, Hash>, revokeLive: bool,
                                role: Role, token: Token)
    requires Inv(w) && Enabled(w, Reissue(read, next, revokeLive)) && ReissueMatches(w, read) && role in next
    ensures var after := AfterReissue(w, read, next, revokeLive);
      var seen := Seen(role, next[role], false);
      && after.codes[role] == Code(next[role], false)
      && seen in AfterLookUp(after, role, next[role]).looked
      && AfterClaim(after, seen, token).issued == w.issued + [Issued(role, token, next[role])]
  {
  }

  /** Every token these codes issued is revoked. */
  predicate AllRevoked(w: World, codes: set<Hash>) {
    forall i :: 0 <= i < |w.issued| && w.issued[i].code in codes ==> w.issued[i].token in w.revoked
  }

  /**
   * A reissue with `revoke_live` revokes every token these roles ever got; and from then on any token of
   * a code it replaced, or of an older one of these roles, is revoked.
   */
  lemma RevokeLiveIsComplete(start: World, before: seq<Step>, read: map<Role, Option<Hash>>, next: map<Role, Hash>,
                             more: seq<Step>)
    requires IsStart(start) && PossibleRun(start, before)
    requires var w := AfterRun(start, before); Enabled(w, Reissue(read, next, true)) && ReissueMatches(w, read)
    requires PossibleRun(AfterReissue(AfterRun(start, before), read, next, true), more)
    ensures var w := AfterRun(start, before);
      var after := AfterReissue(w, read, next, true);
      && (forall i :: 0 <= i < |w.issued| && w.issued[i].role in read ==> w.issued[i].token in after.revoked)
      && AllRevoked(AfterRun(after, more), OldHashes(w, read) + CodesOf(w.issued, read.Keys))
  {
    EveryRunKeeps(start, before);
    var w := AfterRun(start, before);
    ReissueKeeps(w, read, next, true);
    var after := AfterReissue(w, read, next, true);
    EveryRunKeeps(after, more);
    KilledStays(after, more);
    var end := AfterRun(after, more);
    assert forall i :: 0 <= i < |end.issued| ==> IssuedOk(end, end.issued[i]);
  }

  lemma {:induction false} KilledStays(w: World, steps: seq<Step>)
    requires PossibleRun(w, steps)
    ensures w.killed <= AfterRun(w, steps).killed
    decreases |steps|
  {
    if steps != [] {
      KilledStays(Do(w, steps[0]), steps[1..]);
    }
  }
}
