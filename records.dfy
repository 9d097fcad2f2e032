/** Lists of records identified by a text id, as the mock store and the admin
    pages keep them, with the two ways the code base writes one record: the
    forms' in-place upsert on the mock list and the pages' rebuilt list. */
module Records {
  import opened Wrappers
  import Seqs

  /** No two records share an id. */
  predicate UniqueIds<T>(s: seq<T>, id: T -> string) {
    forall i, j :: 0 <= i < j < |s| ==> id(s[i]) != id(s[j])
  }

  predicate HasId<T>(s: seq<T>, id: T -> string, k: string) {
    exists i :: 0 <= i < |s| && id(s[i]) == k
  }

  /** The forms' write: with an `original` record, `findIndex` on its id and
      assignment at that index (nothing when absent); without one, `push`. */
  function Upsert<T>(s: seq<T>, id: T -> string, original: Option<T>, x: T): (r: seq<T>)
    ensures original.None? ==> r == s + [x]
    ensures original.Some? ==> |r| == |s|
    ensures original.Some? && !HasId(s, id, id(original.value)) ==> r == s
    ensures original.Some? && HasId(s, id, id(original.value)) ==>
              exists i :: 0 <= i < |s| && id(s[i]) == id(original.value) && r == s[i := x]
                          && forall k :: 0 <= k < i ==> id(s[k]) != id(original.value)
  {
    if original.Some? then Seqs.ReplaceFirst(s, (e: T) => id(e) == id(original.value), x) else s + [x]
  }

  /** An upsert grows the list by at most one record. */
  lemma UpsertGrowsByAtMostOne<T>(s: seq<T>, id: T -> string, original: Option<T>, x: T)
    ensures |s| <= |Upsert(s, id, original, x)| <= |s| + 1
  {
  }

  /** The pages' `handleSave` on their list: while editing, every record with
      the saved id is replaced by it; otherwise it is appended. */
  function Save<T>(s: seq<T>, id: T -> string, editing: bool, x: T): (r: seq<T>)
    ensures !editing ==> r == s + [x]
    ensures editing ==> |r| == |s| && forall k :: 0 <= k < |s| ==> r[k] == if id(s[k]) == id(x) then x else s[k]
  {
    if editing then Seqs.ReplaceWhere(s, (e: T) => id(e) == id(x), x) else s + [x]
  }

  /** A write keeps ids unique when it keeps the edited record's id, or adds a
      record whose id is new. */
  lemma {:induction false} UpsertKeepsUniqueIds<T>(s: seq<T>, id: T -> string, original: Option<T>, x: T)
    requires UniqueIds(s, id)
    requires original.Some? ==> id(x) == id(original.value)
    requires original.None? ==> !HasId(s, id, id(x))
    ensures UniqueIds(Upsert(s, id, original, x), id)
  {
    var r := Upsert(s, id, original, x);
    if original.None? {
      forall i, j | 0 <= i < j < |r| ensures id(r[i]) != id(r[j]) {
        if j == |s| {
          assert r[i] == s[i];
        } else {
          assert r[i] == s[i] && r[j] == s[j];
        }
      }
    } else {
      var f := Seqs.FindIndex(s, (e: T) => id(e) == id(original.value));
      forall k | 0 <= k < |r| ensures id(r[k]) == id(s[k]) {
        if f >= 0 && k == f {
          assert id(s[f]) == id(original.value);
        }
      }
    }
  }

  /** Every record after a write is an earlier record or the one written. */
  lemma UpsertOnlyAdds<T>(s: seq<T>, id: T -> string, original: Option<T>, x: T, e: T)
    requires e in Upsert(s, id, original, x) && e != x
    ensures e in s
  {
    var r := Upsert(s, id, original, x);
    var k :| 0 <= k < |r| && r[k] == e;
    if original.None? {
      assert k < |s| && s[k] == e;
    } else if HasId(s, id, id(original.value)) {
      var i :| 0 <= i < |s| && id(s[i]) == id(original.value) && r == s[i := x]
               && forall k :: 0 <= k < i ==> id(s[k]) != id(original.value);
      assert s[k] == e;
    }
  }

  /** With unique ids, the page's rebuilt list after saving is exactly the
      mock list after the form's write, whether a record was edited (keeping
      its id) or created. */
  lemma SaveMatchesUpsert<T>(s: seq<T>, id: T -> string, original: Option<T>, x: T)
    requires UniqueIds(s, id)
    requires original.Some? ==> id(x) == id(original.value)
    ensures Save(s, id, original.Some?, x) == Upsert(s, id, original, x)
  {
    if original.Some? {
      var p := (e: T) => id(e) == id(x);
      UniqueIdsAtMostOne(s, id, id(x));
      Seqs.ReplaceFirstIsReplaceWhere(s, p, x);
      assert Upsert(s, id, original, x) == Seqs.ReplaceFirst(s, p, x);
    }
  }

  /** The pages' delete on their list: every record with the id goes. */
  function DeleteAll<T(==,!new)>(s: seq<T>, id: T -> string, k: string): (r: seq<T>)
    ensures Seqs.IsSubsequence(r, s)
    ensures forall e :: e in r <==> e in s && id(e) != k
    ensures forall e :: multiset(r)[e] == if id(e) != k then multiset(s)[e] else 0
  {
    var r := Seqs.Filter(s, (e: T) => id(e) != k);
    forall e ensures e in r <==> e in s && id(e) != k {
      Seqs.FilterMembership(s, (e: T) => id(e) != k, e);
    }
    r
  }

  /** The pages' delete on the mock list: `findIndex` then `splice(i, 1)`,
      which removes the first record with the id, or nothing. */
  function DeleteFirst<T>(s: seq<T>, id: T -> string, k: string): (r: seq<T>)
    ensures !HasId(s, id, k) ==> r == s
    ensures HasId(s, id, k) ==>
              exists i :: 0 <= i < |s| && id(s[i]) == k && r == s[..i] + s[i + 1..]
                          && forall j :: 0 <= j < i ==> id(s[j]) != k
  {
    Seqs.RemoveFirst(s, (e: T) => id(e) == k)
  }

  /** The first position carrying id `k` (or -1 when none does) is where
      `DeleteFirst` splices. */
  lemma DeleteFirstAt<T>(s: seq<T>, id: T -> string, k: string, i: int)
    requires -1 <= i < |s|
    requires i == -1 ==> forall j :: 0 <= j < |s| ==> id(s[j]) != k
    requires i >= 0 ==> id(s[i]) == k && forall j :: 0 <= j < i ==> id(s[j]) != k
    ensures DeleteFirst(s, id, k) == if i == -1 then s else s[..i] + s[i + 1..]
  {
    var f := Seqs.FindIndex(s, (e: T) => id(e) == k);
    if f >= 0 && i >= 0 {
      assert id(s[f]) == k;
      assert !(f < i) && !(i < f);
    }
  }

  /** With unique ids, deleting from the page list and from the mock list
      give the same list, and ids stay unique. */
  lemma {:induction false} DeletesAgree<T(!new)>(s: seq<T>, id: T -> string, k: string)
    requires UniqueIds(s, id)
    ensures DeleteAll(s, id, k) == DeleteFirst(s, id, k)
    ensures UniqueIds(DeleteFirst(s, id, k), id)
  {
    var p := (e: T) => id(e) == k;
    var q := (e: T) => id(e) != k;
    UniqueIdsAtMostOne(s, id, k);
    Seqs.RemoveFirstIsFilter(s, p, q);
    assert DeleteFirst(s, id, k) == Seqs.RemoveFirst(s, p);
    assert DeleteAll(s, id, k) == Seqs.Filter(s, q);
    var f := Seqs.FindIndex(s, p);
    if f >= 0 {
      DropKeepsUniqueIds(s, id, f);
      assert Seqs.RemoveFirst(s, p) == s[..f] + s[f + 1..];
    }
  }

  /** Unique ids: at most one record carries any given id. */
  lemma UniqueIdsAtMostOne<T>(s: seq<T>, id: T -> string, k: string)
    requires UniqueIds(s, id)
    ensures Seqs.AtMostOne(s, (e: T) => id(e) == k)
  {
    forall i, j | 0 <= i < j < |s| ensures !(id(s[i]) == k && id(s[j]) == k) {
    }
  }

  /** Dropping one record keeps ids unique. */
  lemma DropKeepsUniqueIds<T>(s: seq<T>, id: T -> string, f: nat)
    requires UniqueIds(s, id) && f < |s|
    ensures UniqueIds(s[..f] + s[f + 1..], id)
  {
    var r := s[..f] + s[f + 1..];
    forall i, j | 0 <= i < j < |r| ensures id(r[i]) != id(r[j]) {
      var i' := if i < f then i else i + 1;
      var j' := if j < f then j else j + 1;
      assert r[i] == s[i'] && r[j] == s[j'];
    }
  }
}
