/** The list edits the store performs (src-tauri/src/storage/mod.rs), generic
    over the record type and the function giving a record's id: the
    deduplicating prepend of `add_emails`, the first-match replacement of
    `update_account`/`update_email`, and the removal of `delete_account`/
    `delete_email`. */
module Collections {
  import opened Wrappers

  // ---------------------------------------------------------------------------
  // Ids

  /** The ids present in a list. */
  ghost function KeySet<T>(xs: seq<T>, key: T -> string): set<string>
  {
    set i | 0 <= i < |xs| :: key(xs[i])
  }

  /** `t` is the tail end of `s`. */
  predicate EndsWith<T(==)>(s: seq<T>, t: seq<T>)
  {
    |t| <= |s| && s[|s| - |t|..] == t
  }

  /** No two records share an id. */
  ghost predicate UniqueKeys<T>(xs: seq<T>, key: T -> string)
  {
    forall i, j :: 0 <= i < j < |xs| ==> key(xs[i]) != key(xs[j])
  }

  lemma KeySetCons<T>(x: T, xs: seq<T>, key: T -> string)
    ensures KeySet([x] + xs, key) == {key(x)} + KeySet(xs, key)
  {
    var ys := [x] + xs;
    assert key(ys[0]) == key(x);
    forall k | k in KeySet(ys, key) ensures k in {key(x)} + KeySet(xs, key) {
      var i :| 0 <= i < |ys| && key(ys[i]) == k;
      if i > 0 { assert ys[i] == xs[i - 1]; }
    }
    forall k | k in KeySet(xs, key) ensures k in KeySet(ys, key) {
      var i :| 0 <= i < |xs| && key(xs[i]) == k;
      assert ys[i + 1] == xs[i];
    }
  }

  lemma KeySetAppend<T>(xs: seq<T>, ys: seq<T>, key: T -> string)
    ensures KeySet(xs + ys, key) == KeySet(xs, key) + KeySet(ys, key)
  {
    var zs := xs + ys;
    forall k | k in KeySet(zs, key) ensures k in KeySet(xs, key) + KeySet(ys, key) {
      var i :| 0 <= i < |zs| && key(zs[i]) == k;
      if i >= |xs| { assert zs[i] == ys[i - |xs|]; }
    }
    forall k | k in KeySet(xs, key) ensures k in KeySet(zs, key) {
      var i :| 0 <= i < |xs| && key(xs[i]) == k;
      assert zs[i] == xs[i];
    }
    forall k | k in KeySet(ys, key) ensures k in KeySet(zs, key) {
      var i :| 0 <= i < |ys| && key(ys[i]) == k;
      assert zs[i + |xs|] == ys[i];
    }
  }

  /** With unique ids, the number of ids is the number of records. */
  lemma {:induction false} UniqueKeysCount<T>(xs: seq<T>, key: T -> string)
    requires UniqueKeys(xs, key)
    ensures |KeySet(xs, key)| == |xs|
  {
    if xs != [] {
      assert xs == [xs[0]] + xs[1..];
      KeySetCons(xs[0], xs[1..], key);
      assert UniqueKeys(xs[1..], key) by {
        forall i, j | 0 <= i < j < |xs[1..]| ensures key(xs[1..][i]) != key(xs[1..][j]) {
          assert xs[1..][i] == xs[i + 1] && xs[1..][j] == xs[j + 1];
        }
      }
      assert key(xs[0]) !in KeySet(xs[1..], key) by {
        forall i | 0 <= i < |xs[1..]| ensures key(xs[1..][i]) != key(xs[0]) {
          assert xs[1..][i] == xs[i + 1];
        }
      }
      UniqueKeysCount(xs[1..], key);
    }
  }

  /** `iter().any(|e| e.id == k)`. */
  function AnyHasKey<T>(xs: seq<T>, key: T -> string, k: string): (b: bool)
    ensures b <==> k in KeySet(xs, key)
  {
    if xs == [] then false
    else
      assert xs == [xs[0]] + xs[1..];
      KeySetCons(xs[0], xs[1..], key);
      key(xs[0]) == k || AnyHasKey(xs[1..], key, k)
  }

  // ---------------------------------------------------------------------------
  // add_emails: insert at the front every record whose id is not yet present

  /** The loop of `add_emails`: each record of the batch, in order, goes to
      the front of the list unless a record with its id is already there
      (including one inserted earlier from the same batch). */
  function InsertNew<T>(xs: seq<T>, batch: seq<T>, key: T -> string): (r: seq<T>)
    ensures |xs| <= |r| <= |xs| + |batch|
    decreases |batch|
  {
    if batch == [] then xs
    else
      var x := batch[0];
      var next := if AnyHasKey(xs, key, key(x)) then xs else [x] + xs;
      InsertNew(next, batch[1..], key)
  }

  /** Reference definition: the records of the batch that are new, in batch
      order, each id taken at its first occurrence. */
  function Fresh<T>(seen: set<string>, batch: seq<T>, key: T -> string): seq<T>
    decreases |batch|
  {
    if batch == [] then []
    else if key(batch[0]) in seen then Fresh(seen, batch[1..], key)
    else [batch[0]] + Fresh(seen + {key(batch[0])}, batch[1..], key)
  }

  function Reverse<T>(s: seq<T>): (r: seq<T>)
    ensures |r| == |s|
    ensures forall i :: 0 <= i < |s| ==> r[i] == s[|s| - 1 - i]
  {
    if s == [] then [] else Reverse(s[1..]) + [s[0]]
  }

  lemma ReverseCons<T>(x: T, s: seq<T>)
    ensures Reverse([x] + s) == Reverse(s) + [x]
  {
    assert ([x] + s)[1..] == s;
  }

  /** `add_emails` prepends the new records of the batch, the later ones
      first, and leaves the stored list intact behind them. */
  lemma {:induction false} InsertNewShape<T>(xs: seq<T>, batch: seq<T>, key: T -> string)
    ensures InsertNew(xs, batch, key) == Reverse(Fresh(KeySet(xs, key), batch, key)) + xs
    decreases |batch|
  {
    if batch != [] {
      var x := batch[0];
      if key(x) in KeySet(xs, key) {
        InsertNewShape(xs, batch[1..], key);
      } else {
        assert !AnyHasKey(xs, key, key(x));
        assert InsertNew(xs, batch, key) == InsertNew([x] + xs, batch[1..], key);
        KeySetCons(x, xs, key);
        var seen := KeySet(xs, key) + {key(x)};
        assert KeySet([x] + xs, key) == seen;
        InsertNewShape([x] + xs, batch[1..], key);
        var f := Fresh(seen, batch[1..], key);
        assert Fresh(KeySet(xs, key), batch, key) == [x] + f;
        ReverseCons(x, f);
        assert Reverse(f) + ([x] + xs) == (Reverse(f) + [x]) + xs;
      }
    }
  }

  /** The new records are records of the batch. */
  lemma {:induction false} FreshFromBatch<T>(seen: set<string>, batch: seq<T>, key: T -> string)
    ensures forall x :: x in Fresh(seen, batch, key) ==> x in batch
    decreases |batch|
  {
    if batch != [] {
      FreshFromBatch(seen, batch[1..], key);
      FreshFromBatch(seen + {key(batch[0])}, batch[1..], key);
    }
  }

  /** Everything `add_emails` puts in front of the stored list comes from
      the batch. */
  lemma InsertNewFromBatch<T>(xs: seq<T>, batch: seq<T>, key: T -> string)
    ensures forall j :: 0 <= j < |InsertNew(xs, batch, key)| - |xs| ==> InsertNew(xs, batch, key)[j] in batch
  {
    InsertNewShape(xs, batch, key);
    var f := Fresh(KeySet(xs, key), batch, key);
    FreshFromBatch(KeySet(xs, key), batch, key);
    forall j | 0 <= j < |InsertNew(xs, batch, key)| - |xs| ensures InsertNew(xs, batch, key)[j] in batch {
      assert InsertNew(xs, batch, key)[j] == Reverse(f)[j] == f[|f| - 1 - j];
    }
  }

  /** Lists whose records carry the same ids position by position have the
      same ids. */
  lemma SameKeysPointwise<T>(xs: seq<T>, ys: seq<T>, key: T -> string)
    requires |xs| == |ys|
    requires forall i :: 0 <= i < |xs| ==> key(xs[i]) == key(ys[i])
    ensures KeySet(xs, key) == KeySet(ys, key)
  {
    forall k | k in KeySet(xs, key) ensures k in KeySet(ys, key) {
      var i :| 0 <= i < |xs| && key(xs[i]) == k;
      assert key(ys[i]) == k;
    }
    forall k | k in KeySet(ys, key) ensures k in KeySet(xs, key) {
      var i :| 0 <= i < |ys| && key(ys[i]) == k;
      assert key(xs[i]) == k;
    }
  }

  /** Growing a list at the front twice: what lies in front of the innermost
      list came from the first or the second addition. */
  lemma FrontFromEither<T>(outer: seq<T>, mid: seq<T>, inner: seq<T>, a: seq<T>, b: seq<T>)
    requires |inner| <= |mid| <= |outer|
    requires outer[|outer| - |mid|..] == mid
    requires forall j :: 0 <= j < |mid| - |inner| ==> mid[j] in a
    requires forall j :: 0 <= j < |outer| - |mid| ==> outer[j] in b
    ensures forall j :: 0 <= j < |outer| - |inner| ==> outer[j] in a + b
  {
    forall j | 0 <= j < |outer| - |inner| ensures outer[j] in a + b {
      if j >= |outer| - |mid| {
        assert outer[j] == outer[|outer| - |mid|..][j - (|outer| - |mid|)];
      }
    }
  }

  /** The new records carry exactly the batch's ids that were not seen, once
      each. */
  lemma {:induction false} FreshKeys<T>(seen: set<string>, batch: seq<T>, key: T -> string)
    ensures KeySet(Fresh(seen, batch, key), key) == KeySet(batch, key) - seen
    ensures UniqueKeys(Fresh(seen, batch, key), key)
    decreases |batch|
  {
    if batch != [] {
      var x := batch[0];
      assert batch == [x] + batch[1..];
      KeySetCons(x, batch[1..], key);
      if key(x) in seen {
        FreshKeys(seen, batch[1..], key);
      } else {
        var rest := Fresh(seen + {key(x)}, batch[1..], key);
        FreshKeys(seen + {key(x)}, batch[1..], key);
        KeySetCons(x, rest, key);
        var f := [x] + rest;
        forall i, j | 0 <= i < j < |f| ensures key(f[i]) != key(f[j]) {
          if i == 0 {
            assert f[j] == rest[j - 1];
            assert key(rest[j - 1]) in KeySet(rest, key);
          } else {
            assert f[i] == rest[i - 1] && f[j] == rest[j - 1];
          }
        }
      }
    } else {
      assert KeySet(batch, key) == {};
    }
  }

  lemma ReverseKeys<T>(s: seq<T>, key: T -> string)
    ensures KeySet(Reverse(s), key) == KeySet(s, key)
    ensures UniqueKeys(s, key) ==> UniqueKeys(Reverse(s), key)
  {
    var r := Reverse(s);
    forall k | k in KeySet(r, key) ensures k in KeySet(s, key) {
      var i :| 0 <= i < |r| && key(r[i]) == k;
      assert r[i] == s[|s| - 1 - i];
    }
    forall k | k in KeySet(s, key) ensures k in KeySet(r, key) {
      var i :| 0 <= i < |s| && key(s[i]) == k;
      assert r[|s| - 1 - i] == s[i];
    }
  }

  /** Two lists with unique ids and no id in common concatenate to a list
      with unique ids. */
  lemma UniqueKeysAppend<T>(a: seq<T>, b: seq<T>, key: T -> string)
    requires UniqueKeys(a, key) && UniqueKeys(b, key)
    requires KeySet(a, key) !! KeySet(b, key)
    ensures UniqueKeys(a + b, key)
  {
    var ys := a + b;
    forall i, j | 0 <= i < j < |ys| ensures key(ys[i]) != key(ys[j]) {
      if j < |a| {
        assert ys[i] == a[i] && ys[j] == a[j];
      } else if i < |a| {
        assert ys[i] == a[i] && ys[j] == b[j - |a|];
        assert key(a[i]) in KeySet(a, key);
        assert key(b[j - |a|]) in KeySet(b, key);
      } else {
        assert ys[i] == b[i - |a|] && ys[j] == b[j - |a|];
      }
    }
  }

  /** The ids after `add_emails` are the old ids plus the batch's ids. */
  lemma InsertNewKeys<T>(xs: seq<T>, batch: seq<T>, key: T -> string)
    ensures KeySet(InsertNew(xs, batch, key), key) == KeySet(xs, key) + KeySet(batch, key)
  {
    var f := Fresh(KeySet(xs, key), batch, key);
    InsertNewShape(xs, batch, key);
    FreshKeys(KeySet(xs, key), batch, key);
    ReverseKeys(f, key);
    KeySetAppend(Reverse(f), xs, key);
  }

  /** `add_emails` never introduces a duplicate id. */
  lemma InsertNewUnique<T>(xs: seq<T>, batch: seq<T>, key: T -> string)
    requires UniqueKeys(xs, key)
    ensures UniqueKeys(InsertNew(xs, batch, key), key)
  {
    var f := Fresh(KeySet(xs, key), batch, key);
    InsertNewShape(xs, batch, key);
    FreshKeys(KeySet(xs, key), batch, key);
    ReverseKeys(f, key);
    UniqueKeysAppend(Reverse(f), xs, key);
  }

  /** The list grows by the number of distinct ids of the batch that were not
      stored. */
  lemma InsertNewGrowth<T>(xs: seq<T>, batch: seq<T>, key: T -> string)
    ensures |InsertNew(xs, batch, key)| == |xs| + |KeySet(batch, key) - KeySet(xs, key)|
  {
    var f := Fresh(KeySet(xs, key), batch, key);
    InsertNewShape(xs, batch, key);
    FreshKeys(KeySet(xs, key), batch, key);
    UniqueKeysCount(f, key);
  }

  /** A batch whose ids are all stored already changes nothing. */
  lemma {:induction false} InsertNewKnown<T>(xs: seq<T>, batch: seq<T>, key: T -> string)
    requires KeySet(batch, key) <= KeySet(xs, key)
    ensures InsertNew(xs, batch, key) == xs
    decreases |batch|
  {
    if batch != [] {
      assert batch == [batch[0]] + batch[1..];
      KeySetCons(batch[0], batch[1..], key);
      InsertNewKnown(xs, batch[1..], key);
    }
  }

  /** Adding the same batch twice is the same as adding it once. */
  lemma InsertNewIdempotent<T>(xs: seq<T>, batch: seq<T>, key: T -> string)
    ensures InsertNew(InsertNew(xs, batch, key), batch, key) == InsertNew(xs, batch, key)
  {
    InsertNewKeys(xs, batch, key);
    InsertNewKnown(InsertNew(xs, batch, key), batch, key);
  }

  // ---------------------------------------------------------------------------
  // Several batches in turn

  /** The list after `add_emails` has merged each batch in turn. */
  function MergeAll<T>(xs: seq<T>, bs: seq<seq<T>>, key: T -> string): seq<T>
    decreases |bs|
  {
    if bs == [] then xs else MergeAll(InsertNew(xs, bs[0], key), bs[1..], key)
  }

  /** Every id of every batch. */
  ghost function AllKeys<T>(bs: seq<seq<T>>, key: T -> string): set<string>
    decreases |bs|
  {
    if bs == [] then {} else KeySet(bs[0], key) + AllKeys(bs[1..], key)
  }

  /** The batches one after another. */
  function Flatten<T>(bs: seq<seq<T>>): seq<T>
    decreases |bs|
  {
    if bs == [] then [] else bs[0] + Flatten(bs[1..])
  }

  /** Merging batches in turn adds exactly their ids. */
  lemma {:induction false} MergeAllKeys<T>(xs: seq<T>, bs: seq<seq<T>>, key: T -> string)
    ensures KeySet(MergeAll(xs, bs, key), key) == KeySet(xs, key) + AllKeys(bs, key)
    decreases |bs|
  {
    if bs != [] {
      InsertNewKeys(xs, bs[0], key);
      MergeAllKeys(InsertNew(xs, bs[0], key), bs[1..], key);
    }
  }

  lemma SuffixOfSuffix<T>(outer: seq<T>, mid: seq<T>, inner: seq<T>)
    requires |inner| <= |mid| <= |outer|
    requires outer[|outer| - |mid|..] == mid && mid[|mid| - |inner|..] == inner
    ensures outer[|outer| - |inner|..] == inner
  {
    assert outer[|outer| - |inner|..] == outer[|outer| - |mid|..][|mid| - |inner|..];
  }

  /** After merging batches in turn, the list built from the first batch is
      still at the back. */
  lemma MergeAllFirst<T>(xs: seq<T>, bs: seq<seq<T>>, key: T -> string)
    requires bs != []
    ensures EndsWith(MergeAll(xs, bs, key), InsertNew(xs, bs[0], key))
  {
    MergeAllFront(InsertNew(xs, bs[0], key), bs[1..], key);
  }

  /** Merging batches in turn keeps the stored list at the back and puts
      only records of the batches in front of it. */
  lemma {:induction false} MergeAllFront<T>(xs: seq<T>, bs: seq<seq<T>>, key: T -> string)
    ensures |xs| <= |MergeAll(xs, bs, key)|
    ensures MergeAll(xs, bs, key)[|MergeAll(xs, bs, key)| - |xs|..] == xs
    ensures forall j :: 0 <= j < |MergeAll(xs, bs, key)| - |xs| ==> MergeAll(xs, bs, key)[j] in Flatten(bs)
    decreases |bs|
  {
    if bs != [] {
      var m := InsertNew(xs, bs[0], key);
      var o := MergeAll(m, bs[1..], key);
      assert MergeAll(xs, bs, key) == o;
      assert Flatten(bs) == bs[0] + Flatten(bs[1..]);
      assert |xs| <= |m| && m[|m| - |xs|..] == xs && forall j :: 0 <= j < |m| - |xs| ==> m[j] in bs[0] by {
        InsertNewShape(xs, bs[0], key);
        InsertNewFromBatch(xs, bs[0], key);
      }
      MergeAllFront(m, bs[1..], key);
      SuffixOfSuffix(o, m, xs);
      FrontFromEither(o, m, xs, bs[0], Flatten(bs[1..]));
    }
  }

  // ---------------------------------------------------------------------------
  // update_*: replace the first record with the given id

  /** `iter().position(|e| e.id == k)`. */
  function Position<T>(xs: seq<T>, key: T -> string, k: string): (r: Option<nat>)
    ensures r.Some? ==> r.value < |xs| && key(xs[r.value]) == k
    ensures r.Some? ==> forall j :: 0 <= j < r.value ==> key(xs[j]) != k
    ensures r.None? <==> k !in KeySet(xs, key)
  {
    if xs == [] then None
    else
      assert xs == [xs[0]] + xs[1..];
      KeySetCons(xs[0], xs[1..], key);
      if key(xs[0]) == k then Some(0)
      else match Position(xs[1..], key, k)
      case None => None
      case Some(i) =>
        assert forall j :: 1 <= j < i + 1 ==> xs[j] == xs[1..][j - 1];
        Some(i + 1)
  }

  /** The list after `update_*`, or None when no record has the id (and the
      source then neither changes nor saves anything). */
  function ReplaceFirst<T>(xs: seq<T>, key: T -> string, k: string, v: T): (r: Option<seq<T>>)
    ensures r.None? <==> k !in KeySet(xs, key)
    ensures r.Some? ==> |r.value| == |xs|
    ensures r.Some? ==> exists i :: 0 <= i < |xs| && key(xs[i]) == k && r.value == xs[i := v]
                                    && forall j :: 0 <= j < i ==> key(xs[j]) != k
  {
    match Position(xs, key, k)
    case None => None
    case Some(i) => Some(xs[i := v])
  }

  /** With unique ids, replacing a record under its own id keeps the ids
      unique and leaves exactly one record with that id: the new one. */
  lemma ReplaceFirstKeepsUnique<T>(xs: seq<T>, key: T -> string, v: T)
    requires UniqueKeys(xs, key) && key(v) in KeySet(xs, key)
    ensures ReplaceFirst(xs, key, key(v), v).Some?
    ensures UniqueKeys(ReplaceFirst(xs, key, key(v), v).value, key)
    ensures v in ReplaceFirst(xs, key, key(v), v).value
  {
    var i := Position(xs, key, key(v)).value;
    var ys := xs[i := v];
    assert ys[i] == v && key(xs[i]) == key(v);
    forall a, b | 0 <= a < b < |ys| ensures key(ys[a]) != key(ys[b]) {
      if a == i { assert key(ys[b]) == key(xs[b]); }
      else if b == i { assert key(ys[a]) == key(xs[a]); }
    }
  }

  // ---------------------------------------------------------------------------
  // delete_*: keep every record whose id differs

  /** `retain(|e| e.id != k)`. */
  function RemoveAll<T>(xs: seq<T>, key: T -> string, k: string): (r: seq<T>)
    ensures |r| <= |xs|
    ensures forall i :: 0 <= i < |r| ==> r[i] in xs && key(r[i]) != k
    ensures forall i :: 0 <= i < |xs| && key(xs[i]) != k ==> xs[i] in r
  {
    if xs == [] then []
    else if key(xs[0]) == k then RemoveAll(xs[1..], key, k)
    else [xs[0]] + RemoveAll(xs[1..], key, k)
  }

  /** Removal works record by record, so it splits over concatenation. */
  lemma {:induction false} RemoveAllAppend<T>(xs: seq<T>, ys: seq<T>, key: T -> string, k: string)
    ensures RemoveAll(xs + ys, key, k) == RemoveAll(xs, key, k) + RemoveAll(ys, key, k)
  {
    if xs != [] {
      assert (xs + ys)[1..] == xs[1..] + ys;
      RemoveAllAppend(xs[1..], ys, key, k);
    } else {
      assert xs + ys == ys;
    }
  }

  /** Removing an id that is not present changes nothing, and removing twice
      is removing once. */
  lemma {:induction false} RemoveAllAbsent<T>(xs: seq<T>, key: T -> string, k: string)
    requires k !in KeySet(xs, key)
    ensures RemoveAll(xs, key, k) == xs
  {
    if xs != [] {
      assert xs == [xs[0]] + xs[1..];
      KeySetCons(xs[0], xs[1..], key);
      RemoveAllAbsent(xs[1..], key, k);
    }
  }

  lemma RemoveAllIdempotent<T>(xs: seq<T>, key: T -> string, k: string)
    ensures k !in KeySet(RemoveAll(xs, key, k), key)
    ensures RemoveAll(RemoveAll(xs, key, k), key, k) == RemoveAll(xs, key, k)
  {
    RemoveAllAbsent(RemoveAll(xs, key, k), key, k);
  }
}
