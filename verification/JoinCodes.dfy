/** Join codes: redemption and reissue, each a read followed by a guarded update (server/app/models.py). */
module JoinCodes {
  import opened Common

  type Hash = nat
  type Token = nat

  datatype Role = Student | Wizard | Teacher | Observer

  predicate Reusable(role: Role) {
    role in {Teacher, Observer}
  }

  datatype Code = Code(hash: Hash, consumed: bool)

  /** One row per role. */
  type Codes = map<Role, Code>

  /** A `token_issued` audit; `code` remembers which code was redeemed for it. */
  datatype Issued = Issued(role: Role, token: Token, code: Hash)

  /** What the SELECT of a redemption saw. */
  datatype Seen = Seen(role: Role, hash: Hash, consumed: bool)

  datatype LookUpResult = Found(seen: Seen) | InvalidCode | ConsumedCode

  predicate Holds(codes: Codes, role: Role, hash: Hash) {
    role in codes && codes[role].hash == hash
  }

  /** The guarded UPDATE of `consume_join_code` matches one row. */
  predicate ClaimMatches(codes: Codes, seen: Seen) {
    Holds(codes, seen.role, seen.hash) && (!seen.consumed ==> !codes[seen.role].consumed)
  }

  function Current(codes: Codes, role: Role): Option<Hash> {
    if role in codes then Some(codes[role].hash) else None
  }

  // ------------------------------------------------------------ the table

  class JoinCodeTable {
    var codes: Codes
    var issued: seq<Issued>
    var revoked: set<Token>

    constructor (initial: Codes)
      ensures codes == initial && issued == [] && revoked == {}
    {
      codes, issued, revoked := initial, [], {};
    }

    /** The first half of `consume_join_code`. */
    method LookUp(hash: Hash) returns (result: LookUpResult)
      ensures result.InvalidCode? <==> forall role :: !Holds(codes, role, hash)
      ensures result.ConsumedCode? ==> exists role :: Holds(codes, role, hash) && codes[role].consumed && !Reusable(role)
      ensures result.Found? ==>
        && result.seen.hash == hash && Holds(codes, result.seen.role, hash)
        && result.seen.consumed == codes[result.seen.role].consumed
        && (result.seen.consumed ==> Reusable(result.seen.role))
    {
      var roles := [Student, Wizard, Teacher, Observer];
      for i := 0 to |roles|
        invariant forall j :: 0 <= j < i ==> !Holds(codes, roles[j], hash)
      {
        var role := roles[i];
        if role in codes && codes[role].hash == hash {
          assert Holds(codes, role, hash);
          if codes[role].consumed && !Reusable(role) {
            return ConsumedCode;
          }
          return Found(Seen(role, hash, codes[role].consumed));
        }
      }
      forall role: Role ensures !Holds(codes, role, hash) {
        assert role == roles[0] || role == roles[1] || role == roles[2] || role == roles[3];
      }
      result := InvalidCode;
    }

    /** The second half, with the `token_issued` audit of the same transaction. */
    method Claim(seen: Seen, token: Token) returns (won: bool)
      modifies this
      ensures won == ClaimMatches(old(codes), seen)
      ensures revoked == old(revoked)
      ensures won ==> codes == old(codes)[seen.role := Code(seen.hash, true)]
      ensures won ==> issued == old(issued) + [Issued(seen.role, token, seen.hash)]
      ensures !won ==> codes == old(codes) && issued == old(issued)
    {
      won := seen.role in codes && codes[seen.role].hash == seen.hash;
      if won && !seen.consumed {
        won := !codes[seen.role].consumed;
      }
      if won {
        codes := codes[seen.role := Code(seen.hash, true)];
        issued := issued + [Issued(seen.role, token, seen.hash)];
      }
    }

    /**
     * `_replace_join_code`. `meanwhile[n]` is the row a concurrent writer leaves between the n-th SELECT
     * and its UPDATE. The hash returned is the one that was really replaced. A role without a row gets
     * one, unless a concurrent insert is first and the unique columns refuse this one.
     */
    method ReplaceJoinCode(role: Role, hash: Hash, meanwhile: seq<Option<Code>>)
      returns (done: bool, replaced: Option<Hash>)
      requires |meanwhile| == 3
      modifies this`codes
      ensures done ==> role in codes && codes[role] == Code(hash, false)
      ensures role !in old(codes) ==> replaced.None? && (done <==> meanwhile[0].None?)
      ensures role !in old(codes) && !done ==> codes == old(codes)[role := meanwhile[0].value]
      ensures role in old(codes) && done ==>
        replaced == Some(LastBefore(old(codes)[role], meanwhile, Attempt(old(codes)[role], meanwhile)).hash)
      ensures role in old(codes) ==> (done <==> Attempt(old(codes)[role], meanwhile) < 3)
      ensures role in old(codes) && !done ==> codes == old(codes)[role := LastBefore(old(codes)[role], meanwhile, 3)]
      ensures forall r :: r in codes && r != role ==> r in old(codes) && codes[r] == old(codes)[r]
      ensures forall r :: r in old(codes) ==> r in codes
    {
      if role !in codes {
        if meanwhile[0].Some? {
          codes := codes[role := meanwhile[0].value];
          return false, None;
        }
        codes := codes[role := Code(hash, false)];
        return true, None;
      }
      var n := 0;
      while n < 3
        invariant 0 <= n <= 3 && role in codes
        invariant codes == old(codes)[role := LastBefore(old(codes)[role], meanwhile, n)]
        invariant forall k :: 0 <= k < n ==> Disturbed(old(codes)[role], meanwhile, k)
      {
        var current := codes[role].hash;
        if meanwhile[n].Some? {
          codes := codes[role := meanwhile[n].value];
        }
        if codes[role].hash == current {
          AttemptIs(old(codes)[role], meanwhile, n);
          codes := codes[role := Code(hash, false)];
          return true, Some(current);
        }
        n := n + 1;
      }
      AttemptIs(old(codes)[role], meanwhile, 3);
      done, replaced := false, None;
    }

    /** The revocation loop of `reissue_join_codes` with `revoke_live`. */
    method RevokeIssued(roles: set<Role>) returns (newly: seq<Token>)
      modifies this`revoked
      ensures revoked == old(revoked) + TokensOf(issued, roles)
      ensures forall t :: t in newly <==> t in TokensOf(issued, roles) && t !in old(revoked)
    {
      newly := [];
      for i := 0 to |issued|
        invariant revoked == old(revoked) + TokensOf(issued[..i], roles)
        invariant forall t :: t in newly <==> t in TokensOf(issued[..i], roles) && t !in old(revoked)
      {
        var row := issued[i];
        assert issued[..i + 1][..i] == issued[..i] && issued[..i + 1][i] == row;
        assert TokensOf(issued[..i + 1], roles)
            == TokensOf(issued[..i], roles) + if row.role in roles then {row.token} else {};
        if row.role in roles && row.token !in revoked {
          revoked := revoked + {row.token};
          newly := newly + [row.token];
        }
      }
      assert issued[..|issued|] == issued;
    }
  }

  /** The row just before the n-th UPDATE of a reissue. */
  function LastBefore(start: Code, meanwhile: seq<Option<Code>>, n: nat): Code
    requires n <= |meanwhile|
  {
    if n == 0 then start
    else if meanwhile[n - 1].Some? then meanwhile[n - 1].value
    else LastBefore(start, meanwhile, n - 1)
  }

  /** Attempt `n` read one hash and found another. */
  predicate Disturbed(start: Code, meanwhile: seq<Option<Code>>, n: nat)
    requires n < |meanwhile|
  {
    meanwhile[n].Some? && meanwhile[n].value.hash != LastBefore(start, meanwhile, n).hash
  }

  /** The first undisturbed attempt, or 3. */
  function Attempt(start: Code, meanwhile: seq<Option<Code>>): nat
    requires |meanwhile| == 3
  {
    if !Disturbed(start, meanwhile, 0) then 0
    else if !Disturbed(start, meanwhile, 1) then 1
    else if !Disturbed(start, meanwhile, 2) then 2
    else 3
  }

  lemma AttemptIs(start: Code, meanwhile: seq<Option<Code>>, n: nat)
    requires |meanwhile| == 3 && n <= 3
    requires forall k :: 0 <= k < n ==> Disturbed(start, meanwhile, k)
    ensures n < 3 && !Disturbed(start, meanwhile, n) ==> Attempt(start, meanwhile) == n
    ensures n == 3 ==> Attempt(start, meanwhile) == 3
  {
  }

  /** Every token `/join` issued for these roles. */
  function TokensOf(issued: seq<Issued>, roles: set<Role>): (r: set<Token>)
    ensures forall i :: 0 <= i < |issued| && issued[i].role in roles ==> issued[i].token in r
  {
    if issued == [] then {}
    else
      var front, last := issued[..|issued| - 1], issued[|issued| - 1];
      assert forall i :: 0 <= i < |front| ==> front[i] == issued[i];
      TokensOf(front, roles) + if last.role in roles then {last.token} else {}
  }
}
