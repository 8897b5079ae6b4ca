/**
 * The read queries the store runs against a table: the keys a `WHERE`
 * clause selects form a set, and the query lists that set in ascending key
 * order, with `OFFSET skip LIMIT limit` pagination on top. The source issues
 * no ORDER BY; ascending primary key is the order this model fixes.
 */
module Query {

  /** Every key of `m` lies in `1 .. bound - 1`. */
  ghost predicate KeysBelow<R>(m: map<int, R>, bound: int) {
    forall k :: k in m ==> 0 < k < bound
  }

  /** A sequence of keys in strictly ascending order. */
  ghost predicate Ascending(ids: seq<int>) {
    forall i, j :: 0 <= i < j < |ids| ==> ids[i] < ids[j]
  }

  /** The members of `s` below `bound`, in ascending order. */
  function Ascend(s: set<int>, bound: nat): seq<int>
    decreases bound
  {
    if bound == 0 then []
    else
      var k := bound - 1;
      Ascend(s, k) + (if k in s then [k] else [])
  }

  /** The listing holds exactly the members of `s` below `bound`. */
  lemma {:induction false} AscendMembers(s: set<int>, bound: nat)
    ensures forall k :: k in Ascend(s, bound) <==> k in s && 0 <= k < bound
    decreases bound
  {
    if bound > 0 {
      AscendMembers(s, bound - 1);
    }
  }

  /** The listing is in strictly ascending order. */
  lemma {:induction false} AscendSorted(s: set<int>, bound: nat)
    ensures Ascending(Ascend(s, bound))
    decreases bound
  {
    if bound > 0 {
      var k := bound - 1;
      var front := Ascend(s, k);
      AscendSorted(s, k);
      AscendMembers(s, k);
      var ids := Ascend(s, bound);
      forall i, j | 0 <= i < j < |ids| ensures ids[i] < ids[j] {
        if j >= |front| {
          assert ids[i] == front[i] && front[i] in front;
        }
      }
    }
  }

  /**
   * `OFFSET skip LIMIT limit`: at most `limit` keys, those that follow the
   * first `skip` ones, in their original order.
   */
  function Page(ids: seq<int>, skip: nat, limit: nat): (r: seq<int>)
    ensures |r| <= limit
    ensures |r| == if skip >= |ids| then 0 else if |ids| - skip < limit then |ids| - skip else limit
    ensures forall i :: 0 <= i < |r| ==> r[i] == ids[skip + i]
  {
    var rest := if skip <= |ids| then ids[skip..] else [];
    if limit <= |rest| then rest[..limit] else rest
  }

  /** A page of an ascending key list is ascending and drawn from that list. */
  lemma PageOfAscending(ids: seq<int>, skip: nat, limit: nat)
    requires Ascending(ids)
    ensures Ascending(Page(ids, skip, limit))
    ensures forall k :: k in Page(ids, skip, limit) ==> k in ids
  {
    var r := Page(ids, skip, limit);
    forall k | k in r ensures k in ids {
      var i :| 0 <= i < |r| && r[i] == k;
      assert ids[skip + i] == k;
    }
  }

  /** A page of the listing of a table's keys holds keys of that table only. */
  lemma PageOfKeys<R>(m: map<int, R>, bound: nat, skip: nat, limit: nat)
    ensures forall k :: k in Page(Ascend(m.Keys, bound), skip, limit) ==> k in m
  {
    var ids := Ascend(m.Keys, bound);
    var r := Page(ids, skip, limit);
    AscendMembers(m.Keys, bound);
    forall k | k in r ensures k in m {
      var i :| 0 <= i < |r| && r[i] == k;
      assert ids[skip + i] in ids;
    }
  }
}
