/** Update-in-place upsert, as both tables of the store perform it, against an insertion-ordered map. */
module Upsert {

  /** The keys of the first n rows. */
  function KeysUpTo<T>(rows: seq<T>, key: T -> string, n: nat): set<string>
    requires n <= |rows|
  {
    if n == 0 then {} else KeysUpTo(rows, key, n - 1) + {key(rows[n - 1])}
  }

  function KeysOf<T>(rows: seq<T>, key: T -> string): set<string> {
    KeysUpTo(rows, key, |rows|)
  }

  lemma {:induction false} KeyOfRow<T>(rows: seq<T>, key: T -> string, n: nat, i: nat)
    requires i < n <= |rows|
    ensures key(rows[i]) in KeysUpTo(rows, key, n)
  {
    if i < n - 1 { KeyOfRow(rows, key, n - 1, i); }
  }

  /** The last of the first n rows with key k: what the position index remembers. */
  function LastAt<T>(rows: seq<T>, key: T -> string, n: nat, k: string): (p: nat)
    requires n <= |rows| && k in KeysUpTo(rows, key, n)
    ensures p < n && key(rows[p]) == k
    ensures forall j :: p < j < n ==> key(rows[j]) != k
  {
    if key(rows[n - 1]) == k then n - 1 else LastAt(rows, key, n - 1, k)
  }

  function Lookup<T>(rows: seq<T>, key: T -> string, k: string): T
    requires k in KeysOf(rows, key)
  {
    rows[LastAt(rows, key, |rows|, k)]
  }

  ghost predicate UniqueKeys<T>(rows: seq<T>, key: T -> string) {
    forall i, j :: 0 <= i < j < |rows| ==> key(rows[i]) != key(rows[j])
  }

  // ---------------------------------------------------------------- the resulting rows

  /** Row p after the first n batch rows: overwritten when it is the indexed row of a batch key. */
  function PatchedRow<T>(current: seq<T>, batch: seq<T>, key: T -> string, n: nat, p: nat): T
    requires n <= |batch| && p < |current|
  {
    KeyOfRow(current, key, |current|, p);
    if key(current[p]) in KeysUpTo(batch, key, n) && LastAt(current, key, |current|, key(current[p])) == p
    then batch[LastAt(batch, key, n, key(current[p]))]
    else current[p]
  }

  function Patched<T>(current: seq<T>, batch: seq<T>, key: T -> string, n: nat): (rows: seq<T>)
    requires n <= |batch|
    ensures |rows| == |current|
  {
    seq(|current|, p requires 0 <= p < |current| => PatchedRow(current, batch, key, n, p))
  }

  /** The batch rows whose key the table did not hold: appended one by one, never indexed. */
  function Appended<T>(current: seq<T>, batch: seq<T>, key: T -> string, n: nat): seq<T>
    requires n <= |batch|
  {
    if n == 0 then []
    else Appended(current, batch, key, n - 1)
         + if key(batch[n - 1]) in KeysOf(current, key) then [] else [batch[n - 1]]
  }

  function UpsertedUpTo<T>(current: seq<T>, batch: seq<T>, key: T -> string, n: nat): seq<T>
    requires n <= |batch|
  {
    Patched(current, batch, key, n) + Appended(current, batch, key, n)
  }

  function Upserted<T>(current: seq<T>, batch: seq<T>, key: T -> string): seq<T> {
    UpsertedUpTo(current, batch, key, |batch|)
  }

  lemma PatchedNothing<T>(current: seq<T>, batch: seq<T>, key: T -> string)
    ensures UpsertedUpTo(current, batch, key, 0) == current
  {
  }

  lemma PatchedMiss<T>(current: seq<T>, batch: seq<T>, key: T -> string, n: nat)
    requires n < |batch| && key(batch[n]) !in KeysOf(current, key)
    ensures Patched(current, batch, key, n + 1) == Patched(current, batch, key, n)
  {
    forall p | 0 <= p < |current|
      ensures PatchedRow(current, batch, key, n + 1, p) == PatchedRow(current, batch, key, n, p)
    {
      KeyOfRow(current, key, |current|, p);
    }
  }

  lemma PatchedHit<T>(current: seq<T>, batch: seq<T>, key: T -> string, n: nat)
    requires n < |batch| && key(batch[n]) in KeysOf(current, key)
    ensures Patched(current, batch, key, n + 1)
         == Patched(current, batch, key, n)[LastAt(current, key, |current|, key(batch[n])) := batch[n]]
  {
    var at := LastAt(current, key, |current|, key(batch[n]));
    forall p | 0 <= p < |current|
      ensures PatchedRow(current, batch, key, n + 1, p)
           == if p == at then batch[n] else PatchedRow(current, batch, key, n, p)
    {
      KeyOfRow(current, key, |current|, p);
    }
  }

  method BuildIndex<T>(rows: seq<T>, key: T -> string) returns (index: map<string, nat>)
    ensures index.Keys == KeysOf(rows, key)
    ensures forall k :: k in index ==> index[k] == LastAt(rows, key, |rows|, k)
  {
    index := map[];
    for i := 0 to |rows|
      invariant index.Keys == KeysUpTo(rows, key, i)
      invariant forall k :: k in index ==> index[k] == LastAt(rows, key, i, k)
    {
      index := index[key(rows[i]) := i];
    }
  }

  /** Overwrite rows whose key was indexed on entry, append the others. */
  method UpsertRows<T>(current: seq<T>, batch: seq<T>, key: T -> string) returns (rows: seq<T>)
    ensures rows == Upserted(current, batch, key)
  {
    hide Patched, LastAt, KeysUpTo;
    var index := BuildIndex(current, key);
    PatchedNothing(current, batch, key);
    rows := current;
    for i := 0 to |batch|
      invariant rows == UpsertedUpTo(current, batch, key, i)
    {
      if key(batch[i]) in index {
        PatchedHit(current, batch, key, i);
        rows := rows[index[key(batch[i])] := batch[i]];
      } else {
        PatchedMiss(current, batch, key, i);
        rows := rows + [batch[i]];
      }
    }
  }

  // ---------------------------------------------------------------- laws

  lemma PatchedKeepsKeys<T>(current: seq<T>, batch: seq<T>, key: T -> string, n: nat, p: nat)
    requires n <= |batch| && p < |current|
    ensures key(Patched(current, batch, key, n)[p]) == key(current[p])
  {
  }

  lemma {:induction false} AppendedKeys<T>(current: seq<T>, batch: seq<T>, key: T -> string, n: nat, r: T)
    requires n <= |batch| && r in Appended(current, batch, key, n)
    ensures key(r) !in KeysOf(current, key) && exists i :: 0 <= i < n && batch[i] == r
  {
    if r in Appended(current, batch, key, n - 1) { AppendedKeys(current, batch, key, n - 1, r); }
  }

  lemma KeyAtPosition<T>(rows: seq<T>, key: T -> string, i: nat)
    requires i < |rows|
    ensures key(rows[i]) in KeysOf(rows, key)
  {
    KeyOfRow(rows, key, |rows|, i);
  }

  lemma UpsertedRow<T>(current: seq<T>, batch: seq<T>, key: T -> string, i: nat)
    requires i < |Upserted(current, batch, key)|
    ensures i < |current| ==> key(Upserted(current, batch, key)[i]) == key(current[i])
    ensures i >= |current| ==> Upserted(current, batch, key)[i] == Appended(current, batch, key, |batch|)[i - |current|]
    ensures i >= |current| ==> key(Upserted(current, batch, key)[i]) !in KeysOf(current, key)
  {
    hide Patched, KeysUpTo, LastAt;
    if i < |current| {
      PatchedKeepsKeys(current, batch, key, |batch|, i);
    } else {
      AppendedKeys(current, batch, key, |batch|, Appended(current, batch, key, |batch|)[i - |current|]);
    }
  }

  /**
   * An upsert keeps keys unique exactly when the batch rows it appends have distinct keys: rows
   * appended by the same batch are not indexed, so a repeated new key is stored twice.
   */
  lemma UniqueAfterUpsert<T>(current: seq<T>, batch: seq<T>, key: T -> string)
    requires UniqueKeys(current, key)
    ensures UniqueKeys(Upserted(current, batch, key), key) <==> UniqueKeys(Appended(current, batch, key, |batch|), key)
  {
    hide Patched, Appended, KeysUpTo, Upserted;
    var rows, added := Upserted(current, batch, key), Appended(current, batch, key, |batch|);
    UpsertedLength(current, batch, key);
    if UniqueKeys(added, key) {
      forall i, j | 0 <= i < j < |rows|
        ensures key(rows[i]) != key(rows[j])
      {
        UpsertedRow(current, batch, key, i);
        UpsertedRow(current, batch, key, j);
        if i < |current| { KeyAtPosition(current, key, i); }
      }
    }
    forall i, j | UniqueKeys(rows, key) && 0 <= i < j < |added|
      ensures key(added[i]) != key(added[j])
    {
      UpsertedRow(current, batch, key, |current| + i);
      UpsertedRow(current, batch, key, |current| + j);
    }
  }

  lemma UpsertedLength<T>(current: seq<T>, batch: seq<T>, key: T -> string)
    ensures |Upserted(current, batch, key)| == |current| + |Appended(current, batch, key, |batch|)|
  {
  }

  /** A batch with distinct keys appends distinct keys. */
  lemma {:induction false} DistinctBatchAppendsDistinct<T>(current: seq<T>, batch: seq<T>, key: T -> string, n: nat)
    requires n <= |batch| && UniqueKeys(batch, key)
    ensures UniqueKeys(Appended(current, batch, key, n), key)
  {
    hide KeysUpTo;
    if n > 0 {
      DistinctBatchAppendsDistinct(current, batch, key, n - 1);
      var before := Appended(current, batch, key, n - 1);
      forall i | 0 <= i < |before|
        ensures key(before[i]) != key(batch[n - 1])
      {
        AppendedKeys(current, batch, key, n - 1, before[i]);
      }
    }
  }

  /** A batch that repeats a new key leaves it in the table twice. */
  lemma RepeatedNewKeyStoredTwice(k: string, first: int, second: int)
    ensures Upserted([], [(k, first), (k, second)], (r: (string, int)) => r.0) == [(k, first), (k, second)]
  {
    var key := (r: (string, int)) => r.0;
    var batch := [(k, first), (k, second)];
    assert Appended([], batch, key, 1) == [] + [batch[0]];
    assert Appended([], batch, key, 2) == [batch[0]] + [batch[1]];
    assert Patched([], batch, key, 2) == [];
  }

  lemma {:induction false} LastOfUnique<T>(rows: seq<T>, key: T -> string, i: nat)
    requires UniqueKeys(rows, key) && i < |rows|
    ensures key(rows[i]) in KeysOf(rows, key) && LastAt(rows, key, |rows|, key(rows[i])) == i
    ensures Lookup(rows, key, key(rows[i])) == rows[i]
  {
    KeyAtPosition(rows, key, i);
  }

  lemma {:induction false} FindKey<T>(rows: seq<T>, key: T -> string, n: nat, k: string) returns (i: nat)
    requires n <= |rows| && k in KeysUpTo(rows, key, n)
    ensures i < n && key(rows[i]) == k
  {
    i := LastAt(rows, key, n, k);
  }

  /** The keys of the table after an upsert are the old ones and the batch's. */
  lemma UpsertedKeys<T>(current: seq<T>, batch: seq<T>, key: T -> string, k: string)
    ensures k in KeysOf(Upserted(current, batch, key), key) <==> k in KeysOf(current, key) || k in KeysOf(batch, key)
  {
    hide Patched, Appended, KeysUpTo, Upserted, LastAt;
    var rows := Upserted(current, batch, key);
    UpsertedLength(current, batch, key);
    if k in KeysOf(rows, key) {
      var i := FindKey(rows, key, |rows|, k);
      UpsertedRow(current, batch, key, i);
      if i < |current| {
        KeyAtPosition(current, key, i);
      } else {
        AppendedInBatch(current, batch, key, i - |current|);
      }
    }
    if k in KeysOf(current, key) {
      var i := FindKey(current, key, |current|, k);
      UpsertedRow(current, batch, key, i);
      KeyAtPosition(rows, key, i);
    } else if k in KeysOf(batch, key) {
      var i := FindKey(batch, key, |batch|, k);
      var j := BatchRowAppended(current, batch, key, |batch|, i);
      UpsertedRow(current, batch, key, |current| + j);
      KeyAtPosition(rows, key, |current| + j);
    }
  }

  lemma AppendedInBatch<T>(current: seq<T>, batch: seq<T>, key: T -> string, j: nat)
    requires j < |Appended(current, batch, key, |batch|)|
    ensures key(Appended(current, batch, key, |batch|)[j]) in KeysOf(batch, key)
  {
    hide Appended, KeysUpTo;
    var r := Appended(current, batch, key, |batch|)[j];
    AppendedKeys(current, batch, key, |batch|, r);
    var i :| 0 <= i < |batch| && batch[i] == r;
    KeyAtPosition(batch, key, i);
  }

  lemma {:induction false} BatchRowAppended<T>(current: seq<T>, batch: seq<T>, key: T -> string, n: nat, i: nat) returns (j: nat)
    requires i < n <= |batch| && key(batch[i]) !in KeysOf(current, key)
    ensures j < |Appended(current, batch, key, n)| && Appended(current, batch, key, n)[j] == batch[i]
  {
    if i == n - 1 {
      j := |Appended(current, batch, key, n - 1)|;
    } else {
      j := BatchRowAppended(current, batch, key, n - 1, i);
    }
  }

  lemma PatchedValue<T>(current: seq<T>, batch: seq<T>, key: T -> string, p: nat)
    requires UniqueKeys(current, key) && p < |current|
    ensures Patched(current, batch, key, |batch|)[p]
         == if key(current[p]) in KeysOf(batch, key) then Lookup(batch, key, key(current[p])) else current[p]
  {
    LastOfUnique(current, key, p);
  }

  /**
   * Refinement of an insertion-ordered map: with distinct keys in the table and in the batch, old
   * rows keep their places, new rows follow, and a lookup finds the batch's row before the old one.
   */
  lemma UpsertRefinesMap<T>(current: seq<T>, batch: seq<T>, key: T -> string, k: string)
    requires UniqueKeys(current, key) && UniqueKeys(batch, key)
    ensures UniqueKeys(Upserted(current, batch, key), key)
    ensures forall p :: 0 <= p < |current| ==>
              p < |Upserted(current, batch, key)| && key(Upserted(current, batch, key)[p]) == key(current[p])
    ensures k in KeysOf(Upserted(current, batch, key), key) <==> k in KeysOf(current, key) || k in KeysOf(batch, key)
    ensures k in KeysOf(current, key) || k in KeysOf(batch, key) ==>
              Lookup(Upserted(current, batch, key), key, k)
              == if k in KeysOf(batch, key) then Lookup(batch, key, k) else Lookup(current, key, k)
  {
    hide Patched, Appended, KeysUpTo, Upserted, LastAt, Lookup, UniqueKeys, KeysOf;
    DistinctBatchAppendsDistinct(current, batch, key, |batch|);
    UniqueAfterUpsert(current, batch, key);
    UpsertedKeys(current, batch, key, k);
    UpsertedLength(current, batch, key);
    forall p | 0 <= p < |current|
      ensures key(Upserted(current, batch, key)[p]) == key(current[p])
    {
      UpsertedRow(current, batch, key, p);
    }
    if k in KeysOf(current, key) {
      LookupOld(current, batch, key, k);
    } else if k in KeysOf(batch, key) {
      LookupNew(current, batch, key, k);
    }
  }

  lemma UpsertedAt<T>(current: seq<T>, batch: seq<T>, key: T -> string, p: nat)
    requires p < |current|
    ensures p < |Upserted(current, batch, key)| && Upserted(current, batch, key)[p] == Patched(current, batch, key, |batch|)[p]
  {
  }

  lemma LookupOld<T>(current: seq<T>, batch: seq<T>, key: T -> string, k: string)
    requires UniqueKeys(current, key) && UniqueKeys(Upserted(current, batch, key), key) && k in KeysOf(current, key)
    ensures k in KeysOf(Upserted(current, batch, key), key)
    ensures Lookup(Upserted(current, batch, key), key, k)
         == if k in KeysOf(batch, key) then Lookup(batch, key, k) else Lookup(current, key, k)
  {
    hide Patched, Appended, KeysUpTo, Upserted, UniqueKeys;
    var p := FindKey(current, key, |current|, k);
    UpsertedAt(current, batch, key, p);
    PatchedValue(current, batch, key, p);
    PatchedKeepsKeys(current, batch, key, |batch|, p);
    LastOfUnique(Upserted(current, batch, key), key, p);
    LastOfUnique(current, key, p);
  }

  lemma LookupNew<T>(current: seq<T>, batch: seq<T>, key: T -> string, k: string)
    requires UniqueKeys(batch, key) && UniqueKeys(Upserted(current, batch, key), key)
    requires k !in KeysOf(current, key) && k in KeysOf(batch, key)
    ensures k in KeysOf(Upserted(current, batch, key), key)
    ensures Lookup(Upserted(current, batch, key), key, k) == Lookup(batch, key, k)
  {
    hide Patched, Appended, KeysUpTo, Upserted, UniqueKeys;
    var i := FindKey(batch, key, |batch|, k);
    LastOfUnique(batch, key, i);
    var j := BatchRowAppended(current, batch, key, |batch|, i);
    UpsertedLength(current, batch, key);
    UpsertedRow(current, batch, key, |current| + j);
    LastOfUnique(Upserted(current, batch, key), key, |current| + j);
  }
}
