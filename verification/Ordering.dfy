/** The order in which account rows are locked. */
module Ordering {

  /** Strings in the order of their characters, a prefix first. */
  predicate Less(a: string, b: string) {
    if b == "" then false
    else if a == "" then true
    else a[0] < b[0] || (a[0] == b[0] && Less(a[1..], b[1..]))
  }

  lemma {:induction false} LessIrreflexive(a: string)
    ensures !Less(a, a)
  {
    if a != "" {
      LessIrreflexive(a[1..]);
    }
  }

  lemma {:induction false} LessTransitive(a: string, b: string, c: string)
    requires Less(a, b) && Less(b, c)
    ensures Less(a, c)
  {
    if a != "" && a[0] == b[0] == c[0] {
      LessTransitive(a[1..], b[1..], c[1..]);
    }
  }

  lemma {:induction false} LessTotal(a: string, b: string)
    ensures Less(a, b) || a == b || Less(b, a)
  {
    if a != "" && b != "" && a[0] == b[0] {
      LessTotal(a[1..], b[1..]);
      assert [a[0]] + a[1..] == a && [b[0]] + b[1..] == b;
    }
  }

  ghost predicate StrictlyIncreasing(ids: seq<string>) {
    forall i, j :: 0 <= i < j < |ids| ==> Less(ids[i], ids[j])
  }

  function Members(ids: seq<string>): set<string> {
    set i | 0 <= i < |ids| :: ids[i]
  }

  lemma MembersIs(ids: seq<string>)
    ensures forall id :: id in Members(ids) <==> id in ids
  {
  }

  /** Puts id into its place in an increasing sequence, unless it is there already. */
  function Insert(id: string, ids: seq<string>): seq<string> {
    if ids == [] then [id]
    else if id == ids[0] then ids
    else if Less(id, ids[0]) then [id] + ids
    else [ids[0]] + Insert(id, ids[1..])
  }

  lemma {:induction false} InsertKeepsOrder(id: string, ids: seq<string>)
    requires StrictlyIncreasing(ids)
    ensures StrictlyIncreasing(Insert(id, ids))
    ensures forall x :: x in Insert(id, ids) <==> x == id || x in ids
  {
    if ids != [] && id != ids[0] {
      if Less(id, ids[0]) {
        forall j | 0 <= j < |ids|
          ensures Less(id, ids[j])
        {
          if j > 0 {
            LessTransitive(id, ids[0], ids[j]);
          }
        }
      } else {
        LessTotal(id, ids[0]);
        InsertKeepsOrder(id, ids[1..]);
        var rest := Insert(id, ids[1..]);
        assert ids == [ids[0]] + ids[1..];
        forall j | 0 <= j < |rest|
          ensures Less(ids[0], rest[j])
        {
          assert rest[j] in rest;
        }
      }
    }
  }

  /** The distinct ids in increasing order. */
  function Sorted(ids: seq<string>): seq<string> {
    if ids == [] then [] else Insert(ids[|ids| - 1], Sorted(ids[..|ids| - 1]))
  }

  lemma {:induction false} SortedIsOrdered(ids: seq<string>)
    ensures StrictlyIncreasing(Sorted(ids))
    ensures forall x :: x in Sorted(ids) <==> x in ids
  {
    if ids != [] {
      var before, last := ids[..|ids| - 1], ids[|ids| - 1];
      SortedIsOrdered(before);
      InsertKeepsOrder(last, Sorted(before));
      assert ids == before + [last];
    }
  }

  /** There is only one increasing enumeration of a set of ids. */
  lemma {:induction false} IncreasingIsUnique(x: seq<string>, y: seq<string>)
    requires StrictlyIncreasing(x) && StrictlyIncreasing(y)
    requires forall id :: id in x <==> id in y
    ensures x == y
  {
    assert y != [] ==> y[0] in y && y[0] in x;
    assert x != [] ==> x[0] in x && x[0] in y;
    if x != [] {
      if x[0] != y[0] {
        var i :| 0 <= i < |y| && y[i] == x[0];
        var j :| 0 <= j < |x| && x[j] == y[0];
        LessTransitive(x[0], y[0], x[0]);
        LessIrreflexive(x[0]);
        assert false;
      }
      NotInTail(x);
      NotInTail(y);
      forall id
        ensures id in x[1..] <==> id in y[1..]
      {
        TailMember(x, id);
        TailMember(y, id);
      }
      IncreasingIsUnique(x[1..], y[1..]);
      assert x == [x[0]] + x[1..] && y == [y[0]] + y[1..];
    }
  }

  lemma NotInTail(x: seq<string>)
    requires StrictlyIncreasing(x) && x != []
    ensures x[0] !in x[1..] && StrictlyIncreasing(x[1..])
  {
    LessIrreflexive(x[0]);
    forall j | 1 <= j < |x|
      ensures x[j] != x[0]
    {
      assert Less(x[0], x[j]);
    }
  }

  lemma TailMember(x: seq<string>, id: string)
    requires x != [] && x[0] !in x[1..]
    ensures id in x[1..] <==> id in x && id != x[0]
  {
    assert x == [x[0]] + x[1..];
  }
}
