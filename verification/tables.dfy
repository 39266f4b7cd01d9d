/** A database collection seen as the list of its documents in natural (insertion) order, each
    identified by a key. These are the three primitives the controllers use: `findById`,
    `findByIdAndDelete` and `findByIdAndUpdate`. */
module Tables {
  import opened Common

  /** No two documents share an id. */
  predicate UniqueKeys<T>(s: seq<T>, key: T -> Id)
  {
    forall i, j :: 0 <= i < j < |s| ==> key(s[i]) != key(s[j])
  }

  /** Some document has id `id`. */
  predicate HasKey<T>(s: seq<T>, key: T -> Id, id: Id)
  {
    exists i :: 0 <= i < |s| && key(s[i]) == id
  }

  /** `findById`: the first document with the id, or `None` (JavaScript `null`). */
  function Find<T>(s: seq<T>, key: T -> Id, id: Id): (r: Option<T>)
    ensures r.Some? <==> HasKey(s, key, id)
    ensures r.Some? ==> key(r.value) == id && r.value in s
    decreases |s|
  {
    if s == [] then None
    else if key(s[0]) == id then Some(s[0])
    else
      var r := Find(s[1..], key, id);
      assert HasKey(s, key, id) ==> HasKey(s[1..], key, id) by {
        if HasKey(s, key, id) {
          var i :| 0 <= i < |s| && key(s[i]) == id;
          assert s[1..][i - 1] == s[i];
        }
      }
      assert HasKey(s[1..], key, id) ==> HasKey(s, key, id) by {
        if HasKey(s[1..], key, id) {
          var i :| 0 <= i < |s[1..]| && key(s[1..][i]) == id;
          assert s[i + 1] == s[1..][i];
        }
      }
      r
  }

  /** With unique ids, the document found is the one at the position holding that id. */
  lemma {:induction false} FindAt<T>(s: seq<T>, key: T -> Id, i: nat)
    requires UniqueKeys(s, key) && i < |s|
    ensures Find(s, key, key(s[i])) == Some(s[i])
    decreases |s|
  {
    if i > 0 {
      assert key(s[0]) != key(s[i]);
      assert s[1..][i - 1] == s[i];
      FindAt(s[1..], key, i - 1);
    }
  }

  /** With unique ids, a document that has the id sits at exactly one position, and that is the
      one `Find` returns. */
  lemma FoundAt<T>(s: seq<T>, key: T -> Id, id: Id) returns (i: nat)
    requires UniqueKeys(s, key) && HasKey(s, key, id)
    ensures i < |s| && key(s[i]) == id && Find(s, key, id) == Some(s[i])
    ensures forall j :: 0 <= j < |s| && j != i ==> key(s[j]) != id
  {
    i :| 0 <= i < |s| && key(s[i]) == id;
    FindAt(s, key, i);
  }

  /** `findByIdAndDelete`: the collection without the documents that have the id, order kept. */
  function Remove<T>(s: seq<T>, key: T -> Id, id: Id): (r: seq<T>)
    ensures |r| <= |s|
    ensures !HasKey(r, key, id)
    ensures forall x :: x in r ==> x in s && key(x) != id
    ensures !HasKey(s, key, id) ==> r == s
    decreases |s|
  {
    if s == [] then []
    else
      var rest := Remove(s[1..], key, id);
      assert !HasKey(s, key, id) ==> !HasKey(s[1..], key, id) by {
        if HasKey(s[1..], key, id) {
          var i :| 0 <= i < |s[1..]| && key(s[1..][i]) == id;
          assert s[i + 1] == s[1..][i];
        }
      }
      assert forall x :: x in s[1..] ==> x in s;
      if key(s[0]) == id then rest else [s[0]] + rest
  }

  /** With unique ids, deleting the id held at position `i` removes exactly that document and
      keeps every other one, in order. */
  lemma {:induction false} RemoveAt<T>(s: seq<T>, key: T -> Id, i: nat)
    requires UniqueKeys(s, key) && i < |s|
    ensures Remove(s, key, key(s[i])) == s[..i] + s[i + 1..]
    decreases |s|
  {
    if i == 0 {
      RemoveHead(s, key);
    } else {
      var t := s[1..];
      assert t[i - 1] == s[i];
      assert key(s[0]) != key(s[i]);
      UniqueTail(s, key);
      RemoveAt(t, key, i - 1);
      SliceAfterHead(s, i);
    }
  }

  lemma RemoveHead<T>(s: seq<T>, key: T -> Id)
    requires UniqueKeys(s, key) && s != []
    ensures Remove(s, key, key(s[0])) == s[..0] + s[1..]
  {
    NoOtherKey(s, key);
    assert s[..0] + s[1..] == s[1..];
  }

  lemma SliceAfterHead<T>(s: seq<T>, i: nat)
    requires 0 < i < |s|
    ensures s[..i] + s[i + 1..] == [s[0]] + (s[1..][..i - 1] + s[1..][i..])
  {
  }

  lemma UniqueTail<T>(s: seq<T>, key: T -> Id)
    requires UniqueKeys(s, key) && s != []
    ensures UniqueKeys(s[1..], key)
  {
    forall i, j | 0 <= i < j < |s[1..]| ensures key(s[1..][i]) != key(s[1..][j]) {
      assert s[1..][i] == s[i + 1] && s[1..][j] == s[j + 1];
    }
  }

  lemma NoOtherKey<T>(s: seq<T>, key: T -> Id)
    requires UniqueKeys(s, key) && s != []
    ensures !HasKey(s[1..], key, key(s[0]))
  {
    forall j | 0 <= j < |s[1..]| ensures key(s[1..][j]) != key(s[0]) {
      assert s[1..][j] == s[j + 1];
    }
  }

  /** Removing documents keeps the ids unique. */
  lemma RemoveKeepsUnique<T>(s: seq<T>, key: T -> Id, id: Id)
    requires UniqueKeys(s, key)
    ensures UniqueKeys(Remove(s, key, id), key)
  {
    if HasKey(s, key, id) {
      var i :| 0 <= i < |s| && key(s[i]) == id;
      RemoveAt(s, key, i);
    }
  }

  /** `findByIdAndUpdate`: the documents with the id are replaced by their update `f`, the others
      stay where they are. */
  function Update<T>(s: seq<T>, key: T -> Id, id: Id, f: T -> T): (r: seq<T>)
    ensures |r| == |s|
    ensures forall i :: 0 <= i < |s| && key(s[i]) != id ==> r[i] == s[i]
    ensures forall i :: 0 <= i < |s| && key(s[i]) == id ==> r[i] == f(s[i])
  {
    seq(|s|, i requires 0 <= i < |s| => if key(s[i]) == id then f(s[i]) else s[i])
  }

  /** With unique ids, an update changes the one document at position `i` and nothing else. */
  lemma UpdateAt<T>(s: seq<T>, key: T -> Id, i: nat, f: T -> T)
    requires UniqueKeys(s, key) && i < |s|
    ensures Update(s, key, key(s[i]), f) == s[i := f(s[i])]
  {
  }

  /** An update that does not touch the id keeps the ids unique. */
  lemma UpdateKeepsUnique<T>(s: seq<T>, key: T -> Id, id: Id, f: T -> T)
    requires UniqueKeys(s, key)
    requires forall x :: key(f(x)) == key(x)
    ensures UniqueKeys(Update(s, key, id, f), key)
  {
  }

  /** Applying an idempotent update twice is the same as applying it once. */
  lemma UpdateIdempotent<T>(s: seq<T>, key: T -> Id, id: Id, f: T -> T)
    requires forall x :: f(f(x)) == f(x) && key(f(x)) == key(x)
    ensures Update(Update(s, key, id, f), key, id, f) == Update(s, key, id, f)
  {
  }

  /** Adding a document whose id is not yet used keeps the ids unique. */
  lemma AppendKeepsUnique<T>(s: seq<T>, key: T -> Id, x: T)
    requires UniqueKeys(s, key) && !HasKey(s, key, key(x))
    ensures UniqueKeys(s + [x], key)
  {
  }
}
