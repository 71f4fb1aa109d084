/**
 A document collection as the object-document mapper presents it: a
 sequence of documents in natural (insertion) order, each carrying the
 identifier the store generated for it.
 */
module Store {
  import opened Wrappers
  import opened Seqs

  /** A generated document identifier (an ObjectId). */
  type Id = nat

  datatype Doc<T> = Doc(id: Id, value: T)

  predicate UniqueIds<T>(c: seq<Doc<T>>) {
    forall i, j :: 0 <= i < j < |c| ==> c[i].id != c[j].id
  }

  predicate HasId<T>(c: seq<Doc<T>>, id: Id) {
    exists i :: 0 <= i < |c| && c[i].id == id
  }

  /** Where `findById(id)` finds its document. */
  function Position<T>(c: seq<Doc<T>>, id: Id): (r: Option<nat>)
    ensures r.Some? ==> r.value < |c| && c[r.value].id == id
    ensures r.None? <==> !HasId(c, id)
  {
    FirstIndex(c, (d: Doc<T>) => d.id == id)
  }

  /** Where `findOne(filter)` finds its document: the first in natural order. */
  function FindOne<T>(c: seq<Doc<T>>, p: T -> bool): (r: Option<nat>)
    ensures r.Some? ==> r.value < |c| && p(c[r.value].value)
    ensures r.Some? ==> forall j :: 0 <= j < r.value ==> !p(c[j].value)
    ensures r.None? ==> forall j :: 0 <= j < |c| ==> !p(c[j].value)
  {
    FirstIndex(c, (d: Doc<T>) => p(d.value))
  }

  /** Saving a changed document: same place, same identifier, new contents. */
  function Save<T>(c: seq<Doc<T>>, i: nat, v: T): (r: seq<Doc<T>>)
    requires i < |c|
    ensures |r| == |c| && r[i] == Doc(c[i].id, v)
    ensures forall j :: 0 <= j < |c| && j != i ==> r[j] == c[j]
  {
    c[i := Doc(c[i].id, v)]
  }

  /** `findByIdAndDelete(id)` applied to the collection. */
  function Remove<T(==)>(c: seq<Doc<T>>, id: Id): (r: seq<Doc<T>>)
    ensures IsSubsequence(r, c)
    ensures forall j :: 0 <= j < |r| ==> r[j].id != id && r[j] in c
    ensures forall j :: 0 <= j < |c| && c[j].id != id ==> c[j] in r
  {
    Filter(c, (d: Doc<T>) => d.id != id)
  }

  /** With unique identifiers, removing a present identifier removes exactly one document. */
  lemma {:induction false} RemoveOne<T>(c: seq<Doc<T>>, id: Id)
    requires UniqueIds(c)
    ensures HasId(c, id) ==> |Remove(c, id)| == |c| - 1
    ensures !HasId(c, id) ==> Remove(c, id) == c
    decreases |c|
  {
    if |c| > 0 {
      assert UniqueIds(c[1..]) by {
        forall i, j | 0 <= i < j < |c[1..]| ensures c[1..][i].id != c[1..][j].id {
          assert c[1..][i] == c[i + 1] && c[1..][j] == c[j + 1];
        }
      }
      RemoveOne(c[1..], id);
      if c[0].id == id {
        assert !HasId(c[1..], id) by {
          forall j | 0 <= j < |c[1..]| ensures c[1..][j].id != id {
            assert c[1..][j] == c[j + 1];
          }
        }
      } else {
        assert HasId(c, id) ==> HasId(c[1..], id) by {
          if HasId(c, id) {
            var j :| 0 <= j < |c| && c[j].id == id;
            assert c[1..][j - 1] == c[j];
          }
        }
        assert HasId(c[1..], id) ==> HasId(c, id) by {
          if HasId(c[1..], id) {
            var j :| 0 <= j < |c[1..]| && c[1..][j].id == id;
            assert c[j + 1] == c[1..][j];
          }
        }
        assert [c[0]] + c[1..] == c;
      }
    }
  }

  /** The identifiers in a collection. */
  function Ids<T>(c: seq<Doc<T>>): set<Id> {
    set i | 0 <= i < |c| :: c[i].id
  }

  /** Saving in place keeps every identifier where it was. */
  lemma SaveKeepsPositions<T>(c: seq<Doc<T>>, i: nat, v: T, id: Id)
    requires i < |c|
    ensures Position(Save(c, i, v), id) == Position(c, id)
    ensures UniqueIds(c) ==> UniqueIds(Save(c, i, v))
  {
    var c' := Save(c, i, v);
    assert forall j :: 0 <= j < |c| ==> c'[j].id == c[j].id;
    FirstIndexSameKeys(c, c', id);
  }

  lemma {:induction false} FirstIndexSameKeys<T>(a: seq<Doc<T>>, b: seq<Doc<T>>, id: Id)
    requires |a| == |b| && forall j :: 0 <= j < |a| ==> a[j].id == b[j].id
    ensures Position(a, id) == Position(b, id)
    decreases |a|
  {
    if |a| > 0 {
      FirstIndexSameKeys(a[1..], b[1..], id);
    }
  }

  /** With unique identifiers, the document holding an identifier is the one `Position` finds. */
  lemma UniquePosition<T>(c: seq<Doc<T>>, i: nat)
    requires UniqueIds(c) && i < |c|
    ensures Position(c, c[i].id) == Some(i)
  {
  }

  /** Deleting documents keeps the remaining identifiers unique. */
  lemma {:induction false} SubsequenceUniqueIds<T>(a: seq<Doc<T>>, b: seq<Doc<T>>)
    requires IsSubsequence(a, b) && UniqueIds(b)
    ensures UniqueIds(a)
    ensures forall j :: 0 <= j < |a| ==> HasId(b, a[j].id)
    decreases |b|
  {
    if |a| > 0 && |b| > 0 {
      assert UniqueIds(b[1..]) by {
        forall i, j | 0 <= i < j < |b[1..]| ensures b[1..][i].id != b[1..][j].id {
          assert b[1..][i] == b[i + 1] && b[1..][j] == b[j + 1];
        }
      }
      if a[0] == b[0] {
        SubsequenceUniqueIds(a[1..], b[1..]);
        forall j | 0 <= j < |a| ensures HasId(b, a[j].id) {
          if j > 0 {
            assert a[1..][j - 1] == a[j];
            var k :| 0 <= k < |b[1..]| && b[1..][k].id == a[j].id;
            assert b[k + 1].id == a[j].id;
          }
        }
        forall i, j | 0 <= i < j < |a| ensures a[i].id != a[j].id {
          assert a[1..][j - 1] == a[j];
          if i == 0 {
            var k :| 0 <= k < |b[1..]| && b[1..][k].id == a[j].id;
            assert b[k + 1].id == a[j].id;
          } else {
            assert a[1..][i - 1] == a[i];
          }
        }
      } else {
        SubsequenceUniqueIds(a, b[1..]);
        forall j | 0 <= j < |a| ensures HasId(b, a[j].id) {
          var k :| 0 <= k < |b[1..]| && b[1..][k].id == a[j].id;
          assert b[k + 1].id == a[j].id;
        }
      }
    }
  }

  /** A document appended under a fresh identifier is found at the end. */
  lemma {:induction false} PositionAppend<T>(c: seq<Doc<T>>, d: Doc<T>)
    requires !HasId(c, d.id)
    ensures Position(c + [d], d.id) == Some(|c|)
    decreases |c|
  {
    if |c| > 0 {
      assert (c + [d])[1..] == c[1..] + [d];
      assert !HasId(c[1..], d.id) by {
        forall j | 0 <= j < |c[1..]| ensures c[1..][j].id != d.id {
          assert c[1..][j] == c[j + 1];
        }
      }
      PositionAppend(c[1..], d);
    }
  }

  /** A document appended after documents none of which satisfy the filter is the one `findOne` finds. */
  lemma {:induction false} FindOneAppend<T>(c: seq<Doc<T>>, d: Doc<T>, p: T -> bool)
    requires forall j :: 0 <= j < |c| ==> !p(c[j].value)
    requires p(d.value)
    ensures FindOne(c + [d], p) == Some(|c|)
    decreases |c|
  {
    if |c| > 0 {
      assert (c + [d])[1..] == c[1..] + [d];
      assert forall j :: 0 <= j < |c[1..]| ==> c[1..][j] == c[j + 1];
      FindOneAppend(c[1..], d, p);
    }
  }
}
