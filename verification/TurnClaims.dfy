/** Child turns claimed by more than one owner: both planners give up every such owner. */
module TurnClaims {
  import opened Rollouts

  /** The child turns each candidate lists; a candidate lists a turn once. */
  type Kids = seq<seq<TurnRef>>

  ghost predicate EachOnce(kids: Kids) {
    forall i, a, b :: 0 <= i < |kids| && 0 <= a < b < |kids[i]| ==> kids[i][a] != kids[i][b]
  }

  ghost predicate ShareTurn(kids: Kids, i: nat, j: nat)
    requires i < |kids| && j < |kids|
  {
    exists k :: k in kids[i] && k in kids[j]
  }

  /** Another candidate lists one of its turns. */
  ghost predicate Contested(kids: Kids, i: nat)
    requires i < |kids|
  {
    exists j :: 0 <= j < |kids| && j != i && ShareTurn(kids, i, j)
  }

  ghost predicate Claims(owners: map<TurnRef, seq<nat>>, k: TurnRef, i: nat) {
    k in owners && i in owners[k]
  }

  ghost predicate IsOwnerIndex(kids: Kids, owners: map<TurnRef, seq<nat>>) {
    && (forall k, i: nat :: Claims(owners, k, i) <==> i < |kids| && k in kids[i])
    && (forall k :: k in owners ==> forall a, b :: 0 <= a < b < |owners[k]| ==> owners[k][a] != owners[k][b])
  }

  method ChildTurnOwners(kids: Kids) returns (owners: map<TurnRef, seq<nat>>)
    requires EachOnce(kids)
    ensures IsOwnerIndex(kids, owners)
  {
    owners := map[];
    for i := 0 to |kids|
      invariant forall k, x: nat :: Claims(owners, k, x) <==> x < i && k in kids[x]
      invariant forall k :: k in owners ==> forall a, b :: 0 <= a < b < |owners[k]| ==> owners[k][a] != owners[k][b]
    {
      for a := 0 to |kids[i]|
        invariant forall k, x: nat :: Claims(owners, k, x) <==> (x < i && k in kids[x]) || (x == i && k in kids[i][..a])
        invariant forall k :: k in owners ==> forall a, b :: 0 <= a < b < |owners[k]| ==> owners[k][a] != owners[k][b]
      {
        var key := kids[i][a];
        assert kids[i][..a + 1] == kids[i][..a] + [key];
        assert key !in kids[i][..a];
        assert !Claims(owners, key, i);
        var claimed := if key in owners then owners[key] else [];
        ghost var before := owners;
        owners := owners[key := claimed + [i]];
        forall k, x: nat ensures Claims(owners, k, x) <==> Claims(before, k, x) || (k == key && x == i) {}
      }
      assert kids[i][..|kids[i]|] == kids[i];
    }
  }

  /** The candidates that share a child turn with another. */
  method CollidedOwners(kids: Kids) returns (collided: set<nat>)
    requires EachOnce(kids)
    ensures forall i: nat :: i in collided <==> i < |kids| && Contested(kids, i)
  {
    var owners := ChildTurnOwners(kids);
    collided := set k, i | k in owners && |owners[k]| > 1 && i in owners[k] :: i;
    forall i: nat ensures i in collided <==> i < |kids| && Contested(kids, i) {
      if i in collided {
        var k :| k in owners && |owners[k]| > 1 && i in owners[k];
        assert Claims(owners, k, i);
      }
      if i < |kids| { TwoClaimsAreContested(kids, owners, i); }
    }
  }

  lemma TwoClaimsAreContested(kids: Kids, owners: map<TurnRef, seq<nat>>, i: nat)
    requires IsOwnerIndex(kids, owners) && i < |kids|
    ensures Contested(kids, i) <==> exists k :: k in owners && |owners[k]| > 1 && i in owners[k]
  {
    if k :| k in owners && |owners[k]| > 1 && i in owners[k] {
      var j := if owners[k][0] == i then owners[k][1] else owners[k][0];
      assert j in owners[k];
      assert Claims(owners, k, i) && Claims(owners, k, j);
      assert ShareTurn(kids, i, j);
    }
    if j :| 0 <= j < |kids| && j != i && ShareTurn(kids, i, j) {
      var k :| k in kids[i] && k in kids[j];
      assert Claims(owners, k, i) && Claims(owners, k, j);
      var a :| 0 <= a < |owners[k]| && owners[k][a] == i;
      var b :| 0 <= b < |owners[k]| && owners[k][b] == j;
    }
  }
}
