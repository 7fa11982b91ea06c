/** Capability lists: normalised sets of numeric ids, and what two peers make of them. */
module Capability {
  import opened Wire

  const MAX_CAPABILITIES := 32

  predicate StrictlyIncreasing(ids: seq<u16>) {
    forall i, j :: 0 <= i < j < |ids| ==> ids[i] < ids[j]
  }

  function Insert(ids: seq<u16>, x: u16): seq<u16> {
    if ids == [] || x < ids[0] then [x] + ids
    else if x == ids[0] then ids
    else [ids[0]] + Insert(ids[1..], x)
  }

  /** Sorted and without duplicates. */
  function Normalize(ids: seq<u16>): seq<u16> {
    if ids == [] then [] else Insert(Normalize(ids[..|ids| - 1]), ids[|ids| - 1])
  }

  lemma {:induction false} InsertMembers(ids: seq<u16>, x: u16, y: u16)
    ensures y in Insert(ids, x) <==> y == x || y in ids
    ensures |Insert(ids, x)| <= |ids| + 1
  {
    if ids == [] || x <= ids[0] {
    } else {
      InsertMembers(ids[1..], x, y);
      assert ids == [ids[0]] + ids[1..];
    }
  }

  lemma {:induction false} InsertIncreasing(ids: seq<u16>, x: u16)
    requires StrictlyIncreasing(ids)
    ensures StrictlyIncreasing(Insert(ids, x))
  {
    if ids == [] || x <= ids[0] {
    } else {
      InsertIncreasing(ids[1..], x);
      var tail := Insert(ids[1..], x);
      forall i | 0 <= i < |tail| ensures ids[0] < tail[i] { InsertMembers(ids[1..], x, tail[i]); }
    }
  }

  lemma {:induction false} InsertLast(ids: seq<u16>, x: u16)
    requires forall i :: 0 <= i < |ids| ==> ids[i] < x
    ensures Insert(ids, x) == ids + [x]
  {
    if ids == [] {
    } else {
      InsertLast(ids[1..], x);
    }
  }

  lemma {:induction false} NormalizeMeaning(ids: seq<u16>, y: u16)
    ensures StrictlyIncreasing(Normalize(ids)) && |Normalize(ids)| <= |ids|
    ensures y in Normalize(ids) <==> y in ids
  {
    if ids == [] {
    } else {
      var front := ids[..|ids| - 1];
      NormalizeMeaning(front, y);
      InsertIncreasing(Normalize(front), ids[|ids| - 1]);
      InsertMembers(Normalize(front), ids[|ids| - 1], y);
      assert ids == front + [ids[|ids| - 1]];
    }
  }

  lemma {:induction false} NormalizeFixed(ids: seq<u16>)
    requires StrictlyIncreasing(ids)
    ensures Normalize(ids) == ids
  {
    if ids == [] {
    } else {
      var front := ids[..|ids| - 1];
      NormalizeFixed(front);
      InsertLast(front, ids[|ids| - 1]);
      assert ids == front + [ids[|ids| - 1]];
    }
  }

  lemma {:induction false} TailMembers(a: seq<u16>, y: u16)
    requires StrictlyIncreasing(a) && a != []
    ensures y in a[1..] <==> y in a && y != a[0]
  {
    assert a == [a[0]] + a[1..];
    forall i | 0 <= i < |a[1..]| ensures a[1..][i] != a[0] {
      assert a[1..][i] == a[i + 1];
    }
  }

  /** A normalised list is determined by its members. */
  lemma {:induction false} SameMembers(a: seq<u16>, b: seq<u16>)
    requires StrictlyIncreasing(a) && StrictlyIncreasing(b) && forall y :: y in a <==> y in b
    ensures a == b
  {
    if a == [] {
      assert forall i :: 0 <= i < |b| ==> b[i] in a;
    } else {
      assert a[0] in b;
      assert b[0] in a;
      assert a[0] == b[0];
      forall y ensures y in a[1..] <==> y in b[1..] {
        TailMembers(a, y);
        TailMembers(b, y);
      }
      SameMembers(a[1..], b[1..]);
    }
  }

  /** Build the normalised list one id at a time. Too many ids are refused before anything else. */
  method New(ids: seq<u16>) returns (r: Option<seq<u16>>)
    ensures r.None? <==> |ids| > MAX_CAPABILITIES
    ensures r.Some? ==> r.value == Normalize(ids)
  {
    if |ids| > MAX_CAPABILITIES { return None; }
    var sorted: seq<u16> := [];
    for i := 0 to |ids|
      invariant sorted == Normalize(ids[..i])
    {
      assert ids[..i + 1][..i] == ids[..i];
      sorted := Insert(sorted, ids[i]);
    }
    assert ids[..|ids|] == ids;
    r := Some(sorted);
  }

  function Shared(a: seq<u16>, b: seq<u16>): seq<u16> {
    if a == [] then [] else (if a[0] in b then [a[0]] else []) + Shared(a[1..], b)
  }

  function Intersect(a: seq<u16>, b: seq<u16>): seq<u16> {
    Normalize(Shared(a, b))
  }

  lemma {:induction false} SharedMembers(a: seq<u16>, b: seq<u16>, y: u16)
    ensures y in Shared(a, b) <==> y in a && y in b
  {
    if a == [] {
    } else {
      SharedMembers(a[1..], b, y);
      assert a == [a[0]] + a[1..];
    }
  }

  lemma {:induction false} IntersectMeaning(a: seq<u16>, b: seq<u16>, y: u16)
    ensures StrictlyIncreasing(Intersect(a, b))
    ensures y in Intersect(a, b) <==> y in a && y in b
  {
    NormalizeMeaning(Shared(a, b), y);
    SharedMembers(a, b, y);
  }

  /**
   The server negotiates what it supports of the client's offer; the client keeps what it offered of
   the server's answer. Whatever either supports, both end with the same list.
   */
  lemma {:induction false} PeersNegotiateTheSame(supported: seq<u16>, offered: seq<u16>)
    ensures Intersect(offered, Intersect(supported, offered)) == Intersect(supported, offered)
  {
    var server := Intersect(supported, offered);
    var client := Intersect(offered, server);
    forall y ensures y in client <==> y in server {
      IntersectMeaning(supported, offered, y);
      IntersectMeaning(offered, server, y);
    }
    IntersectMeaning(supported, offered, 0);
    IntersectMeaning(offered, server, 0);
    SameMembers(client, server);
  }

  const SUPPORTED: seq<u16> := [CAPABILITY_REGISTER_REJECT, CAPABILITY_DRAIN_DEADLINE]

  /** What is negotiated is what the client offered of numbers 1 and 2. */
  lemma {:induction false} NegotiatedExactly(offered: seq<u16>, y: u16)
    ensures y in Intersect(SUPPORTED, offered) <==> y in offered && (y == 1 || y == 2)
  {
    IntersectMeaning(SUPPORTED, offered, y);
    assert SUPPORTED == [1, 2];
  }

  /** So both sides run correlated registration, or neither does, and it is the client's offer that decides. */
  lemma {:induction false} CorrelationIsShared(offered: seq<u16>)
    ensures var server := Intersect(SUPPORTED, offered);
      && (CAPABILITY_REGISTER_REJECT in Intersect(offered, server) <==> CAPABILITY_REGISTER_REJECT in server)
      && (CAPABILITY_REGISTER_REJECT in server <==> 1 in offered)
  {
    PeersNegotiateTheSame(SUPPORTED, offered);
    IntersectMeaning(SUPPORTED, offered, CAPABILITY_REGISTER_REJECT);
    assert SUPPORTED[0] == CAPABILITY_REGISTER_REJECT;
  }
}
