/** How the dashboard brings a cached list in line with a successful write:
    an update replaces by id (`map`), a delete removes by id (`filter`). */
module Reconcile {
  import opened Records

  /** Every entry whose id is `id` replaced by `rec`, all others kept, in place. */
  function ReplaceById<F>(s: seq<Entry<F>>, id: string, rec: Entry<F>): (r: seq<Entry<F>>)
    ensures |r| == |s|
  {
    if s == [] then []
    else [if s[0].id == id then rec else s[0]] + ReplaceById(s[1..], id, rec)
  }

  /** Position by position: a matching entry becomes `rec`, any other stays as it was. */
  lemma {:induction false} ReplaceByIdAt<F>(s: seq<Entry<F>>, id: string, rec: Entry<F>)
    ensures forall i :: 0 <= i < |s| ==>
      ReplaceById(s, id, rec)[i] == if s[i].id == id then rec else s[i]
  {
    if s != [] {
      ReplaceByIdAt(s[1..], id, rec);
      var r := ReplaceById(s, id, rec);
      forall i | 0 <= i < |s| ensures r[i] == if s[i].id == id then rec else s[i] {
        if i > 0 {
          assert r[i] == ReplaceById(s[1..], id, rec)[i - 1];
        }
      }
    }
  }

  /** Replacing an id no entry carries leaves the list as it was. */
  lemma ReplaceByIdAbsent<F>(s: seq<Entry<F>>, id: string, rec: Entry<F>)
    requires forall i :: 0 <= i < |s| ==> s[i].id != id
    ensures ReplaceById(s, id, rec) == s
  {
    ReplaceByIdAt(s, id, rec);
  }

  /** Applying the same update response twice gives what applying it once did. */
  lemma ReplaceByIdIdempotent<F>(s: seq<Entry<F>>, id: string, rec: Entry<F>)
    ensures ReplaceById(ReplaceById(s, id, rec), id, rec) == ReplaceById(s, id, rec)
  {
    var once := ReplaceById(s, id, rec);
    ReplaceByIdAt(s, id, rec);
    ReplaceByIdAt(once, id, rec);
  }

  /** The entries whose id is not `id`, in their original order. */
  function RemoveById<F(!new)>(s: seq<Entry<F>>, id: string): (r: seq<Entry<F>>)
    ensures |r| <= |s|
    ensures forall x :: x in r <==> x in s && x.id != id
  {
    if s == [] then []
    else if s[0].id == id then RemoveById(s[1..], id)
    else [s[0]] + RemoveById(s[1..], id)
  }

  /** Removal works piece by piece, so the kept entries keep their relative order. */
  lemma {:induction false} RemoveByIdConcat<F(!new)>(a: seq<Entry<F>>, b: seq<Entry<F>>, id: string)
    ensures RemoveById(a + b, id) == RemoveById(a, id) + RemoveById(b, id)
  {
    if a != [] {
      assert (a + b)[1..] == a[1..] + b;
      RemoveByIdConcat(a[1..], b, id);
    } else {
      assert a + b == b;
    }
  }

  /** Each entry is kept as often as it occurs when its id differs, and dropped otherwise. */
  lemma {:induction false} RemoveByIdCounts<F(!new)>(s: seq<Entry<F>>, id: string)
    ensures forall x :: multiset(RemoveById(s, id))[x] == if x.id == id then 0 else multiset(s)[x]
  {
    if s != [] {
      RemoveByIdCounts(s[1..], id);
      assert s == [s[0]] + s[1..];
      assert multiset(s) == multiset{s[0]} + multiset(s[1..]);
    }
  }

  /** A list in which no entry has the id is left as it is. */
  lemma {:induction false} RemoveByIdAbsent<F(!new)>(s: seq<Entry<F>>, id: string)
    requires forall i :: 0 <= i < |s| ==> s[i].id != id
    ensures RemoveById(s, id) == s
  {
    if s != [] {
      RemoveByIdAbsent(s[1..], id);
    }
  }

  /** A second delete of the same id changes nothing. */
  lemma RemoveByIdIdempotent<F(!new)>(s: seq<Entry<F>>, id: string)
    ensures RemoveById(RemoveById(s, id), id) == RemoveById(s, id)
  {
    var r := RemoveById(s, id);
    forall i | 0 <= i < |r| ensures r[i].id != id {
      assert r[i] in r;
    }
    RemoveByIdAbsent(r, id);
  }
}
