/**
 * The sled database of the phone-login server: the "verifications" tree
 * (normalised phone -> "code:expiry") and one meal tree per user, keyed by the
 * big-endian bytes of the insertion second.
 */
module Db {
  import opened Wrappers
  import opened Text
  import opened Numbers
  import opened ByteOrder

  type Bytes = seq<bv8>

  /** Any `sled::Error`. */
  datatype StorageError = StorageError

  /** One record of a meal tree. */
  datatype MealEntry = MealEntry(key: I64, value: Bytes)

  /** The value `store_verification` writes: `format!("{}:{}", code, expiry)`. */
  function VerificationRecord(code: string, expiry: I64): string {
    code + ":" + IntToString(expiry)
  }

  /**
   * What `verify_code` accepts in a stored record: it splits into exactly two
   * pieces at `:`, the first is the presented code, and `now` is before the
   * expiry (an expiry that does not parse as an `i64` counts as 0).
   */
  predicate RecordAccepts(record: string, code: string, now: I64) {
    var parts := Split(record, ':');
    |parts| == 2 && parts[0] == code && now < ParseI64(parts[1]).GetOr(0)
  }

  /** A verification map accepts `code` for `phone` at `now`. */
  predicate CodeAccepted(v: map<string, string>, phone: string, code: string, now: I64) {
    phone in v && RecordAccepts(v[phone], code, now)
  }

  /**
   * After `store_verification(phone, code, expiry)` the only code accepted for
   * `phone` is `code`, and only strictly before `expiry`; a code issued earlier is
   * no longer accepted.
   */
  lemma StoredRecordAccepts(v: map<string, string>, phone: string, code: string, expiry: I64, presented: string, now: I64)
    requires ':' !in code
    ensures CodeAccepted(v[phone := VerificationRecord(code, expiry)], phone, presented, now)
        <==> presented == code && now < expiry
  {
    var e := IntToString(expiry);
    SplitAtFirstSeparator(code, e, ':');
    SplitWithoutSeparator(e, ':');
    ParseIntToString(expiry);
    assert VerificationRecord(code, expiry) == code + [':'] + e;
  }

  /** Once a phone's record has been consumed, no code verifies for it until a new one is stored. */
  lemma ConsumedCodeRejected(v: map<string, string>, phone: string, code: string, now: I64)
    ensures !CodeAccepted(v - {phone}, phone, code, now)
  {
  }

  /** A record whose expiry is not a number never verifies at a non-negative time. */
  lemma UnparsableExpiryRejected(record: string, code: string, now: I64)
    requires 0 <= now
    requires var parts := Split(record, ':'); |parts| == 2 && ParseI64(parts[1]).None?
    ensures !RecordAccepts(record, code, now)
  {
  }

  /** The name of a user's meal tree: `format!("user_meals_{}", user_id)`. */
  function MealTreeName(userId: string): (name: string)
    ensures name != "verifications"
  {
    assert ("user_meals_" + userId)[0] == 'u';
    "user_meals_" + userId
  }

  /** Different users have different meal trees. */
  lemma MealTreeNameInjective(a: string, b: string)
    ensures MealTreeName(a) == MealTreeName(b) <==> a == b
  {
    if MealTreeName(a) == MealTreeName(b) {
      assert a == MealTreeName(a)[11..] && b == MealTreeName(b)[11..];
    }
  }

  /** A tree's entries in sled's key order: strictly increasing key bytes (see `KeyOrder`). */
  ghost predicate SortedTree(t: seq<MealEntry>) {
    forall i, j | 0 <= i < j < |t| :: AsU64(t[i].key) < AsU64(t[j].key)
  }

  /** sled's `get`: the value under key `k`, if any. */
  function Lookup(t: seq<MealEntry>, k: I64): Option<Bytes> {
    if t == [] then None
    else if t[0].key == k then Some(t[0].value)
    else Lookup(t[1..], k)
  }

  /** sled's `insert`: put `v` under `k` in key order, replacing an entry with the same key. */
  function TreeInsert(t: seq<MealEntry>, k: I64, v: Bytes): (r: seq<MealEntry>)
    requires SortedTree(t)
    ensures SortedTree(r)
    ensures forall e | e in r :: e == MealEntry(k, v) || e in t
  {
    if t == [] then [MealEntry(k, v)]
    else if AsU64(t[0].key) < AsU64(k) then
      var rest := TreeInsert(t[1..], k, v);
      assert forall e | e in rest :: AsU64(t[0].key) < AsU64(e.key) by {
        forall e | e in rest
          ensures AsU64(t[0].key) < AsU64(e.key)
        {
          if e != MealEntry(k, v) {
            var m :| 0 <= m < |t[1..]| && t[1..][m] == e;
            assert t[m + 1] == e;
          }
        }
      }
      [t[0]] + rest
    else if t[0].key == k then [MealEntry(k, v)] + t[1..]
    else [MealEntry(k, v)] + t
  }

  /** In a sorted tree keys are unique, so `get` finds exactly the entries the tree holds. */
  lemma {:induction false} LookupIsMember(t: seq<MealEntry>, k: I64, v: Bytes)
    requires SortedTree(t)
    ensures Lookup(t, k) == Some(v) <==> MealEntry(k, v) in t
  {
    if t != [] {
      assert SortedTree(t[1..]) by {
        forall i, j | 0 <= i < j < |t[1..]|
          ensures AsU64(t[1..][i].key) < AsU64(t[1..][j].key)
        {
          assert t[1..][i] == t[i + 1] && t[1..][j] == t[j + 1];
        }
      }
      LookupIsMember(t[1..], k, v);
      assert t == [t[0]] + t[1..];
      if t[0].key == k {
        assert MealEntry(k, v) !in t[1..] by {
          forall j | 0 <= j < |t[1..]|
            ensures t[1..][j] != MealEntry(k, v)
          {
            assert t[1..][j] == t[j + 1];
            assert AsU64(t[0].key) < AsU64(t[j + 1].key);
          }
        }
      }
    }
  }

  /** After an insert, `k` holds the new value and every other key what it held before. */
  lemma {:induction false} LookupAfterInsert(t: seq<MealEntry>, k: I64, v: Bytes, q: I64)
    requires SortedTree(t)
    ensures Lookup(TreeInsert(t, k, v), q) == if q == k then Some(v) else Lookup(t, q)
  {
    if t != [] && AsU64(t[0].key) < AsU64(k) {
      LookupAfterInsert(t[1..], k, v, q);
      var r := TreeInsert(t, k, v);
      assert r[0] == t[0] && r[1..] == TreeInsert(t[1..], k, v);
    } else if t != [] && t[0].key != k {
      var r := TreeInsert(t, k, v);
      assert r[1..] == t;
    }
  }

  /**
   * What sled's `range(start.to_be_bytes()..end.to_be_bytes())` yields from tree
   * `t`, as (timestamp, value) pairs in tree order.
   */
  function RangeScan(t: seq<MealEntry>, start: I64, end: I64): seq<(I64, Bytes)> {
    if t == [] then []
    else
      var last := t[|t| - 1];
      RangeScan(t[..|t| - 1], start, end) + (if InByteRange(last.key, start, end) then [(last.key, last.value)] else [])
  }

  /** The scan holds exactly the tree's entries whose keys lie in the byte range. */
  lemma {:induction false} RangeScanMembers(t: seq<MealEntry>, start: I64, end: I64, k: I64, v: Bytes)
    ensures (k, v) in RangeScan(t, start, end) <==> MealEntry(k, v) in t && InByteRange(k, start, end)
  {
    if t != [] {
      RangeScanMembers(t[..|t| - 1], start, end, k, v);
      assert t == t[..|t| - 1] + [t[|t| - 1]];
    }
  }

  /** The scan only ever holds keys of the tree, in range. */
  lemma {:induction false} RangeScanFromTree(t: seq<MealEntry>, start: I64, end: I64, i: nat)
    requires i < |RangeScan(t, start, end)|
    ensures var p := RangeScan(t, start, end)[i];
      MealEntry(p.0, p.1) in t && InByteRange(p.0, start, end)
  {
    var p := RangeScan(t, start, end)[i];
    assert p in RangeScan(t, start, end);
    RangeScanMembers(t, start, end, p.0, p.1);
  }

  /** Scanning a sorted tree yields strictly ascending timestamps (ascending as unsigned). */
  lemma {:induction false} RangeScanAscending(t: seq<MealEntry>, start: I64, end: I64)
    requires SortedTree(t)
    ensures var s := RangeScan(t, start, end);
      forall i, j | 0 <= i < j < |s| :: AsU64(s[i].0) < AsU64(s[j].0)
  {
    if t != [] {
      var init := t[..|t| - 1];
      var last := t[|t| - 1];
      RangeScanAscending(init, start, end);
      var s0 := RangeScan(init, start, end);
      forall i | 0 <= i < |s0|
        ensures AsU64(s0[i].0) < AsU64(last.key)
      {
        RangeScanFromTree(init, start, end, i);
        var p := s0[i];
        var m :| 0 <= m < |init| && init[m] == MealEntry(p.0, p.1);
        assert t[m] == init[m];
      }
    }
  }

  /** For non-negative timestamps the scan is the ordinary half-open range `start <= key < end`. */
  lemma RangeScanNonNegative(t: seq<MealEntry>, start: I64, end: I64, k: I64, v: Bytes)
    requires 0 <= start && 0 <= end && 0 <= k
    ensures (k, v) in RangeScan(t, start, end) <==> MealEntry(k, v) in t && start <= k < end
  {
    RangeScanMembers(t, start, end, k, v);
    ByteRangeNonNegative(k, start, end);
  }

  /** The loop of `get_meals`: walk the tree in order and push each entry in range. */
  method ScanRange(t: seq<MealEntry>, start: I64, end: I64) returns (meals: seq<(I64, Bytes)>)
    ensures meals == RangeScan(t, start, end)
  {
    meals := [];
    var i := 0;
    while i < |t|
      invariant 0 <= i <= |t|
      invariant meals == RangeScan(t[..i], start, end)
    {
      assert t[..i + 1][..i] == t[..i];
      if InByteRange(t[i].key, start, end) {
        meals := meals + [(t[i].key, t[i].value)];
      }
      i := i + 1;
    }
    assert t[..|t|] == t;
  }

  /** The tree called `name`; `open_tree` creates it empty when missing. */
  function TreeOf(trees: map<string, seq<MealEntry>>, name: string): seq<MealEntry> {
    if name in trees then trees[name] else []
  }

  /** `AppDb`: the sled handle. `healthy` is false when every sled call fails. */
  class AppDb {
    var verifications: map<string, string>
    var mealTrees: map<string, seq<MealEntry>>
    var healthy: bool

    ghost predicate Valid()
      reads this
    {
      forall name | name in mealTrees :: SortedTree(mealTrees[name])
    }

    /** `AppDb::new(conn)`: wraps an open database, whatever it already holds. */
    constructor (verifications: map<string, string>, mealTrees: map<string, seq<MealEntry>>, healthy: bool)
      requires forall name | name in mealTrees :: SortedTree(mealTrees[name])
      ensures Valid()
      ensures this.verifications == verifications && this.mealTrees == mealTrees && this.healthy == healthy
    {
      this.verifications := verifications;
      this.mealTrees := mealTrees;
      this.healthy := healthy;
    }

    /** `add_meal`: insert `mealData` under the current second in the user's tree. */
    method AddMeal(userId: string, mealData: Bytes, now: I64) returns (r: Result<(), StorageError>)
      requires Valid()
      modifies this
      ensures Valid()
      ensures r.Ok? <==> healthy
      ensures verifications == old(verifications) && healthy == old(healthy)
      ensures var name := MealTreeName(userId);
        mealTrees == if r.Ok? then old(mealTrees)[name := TreeInsert(TreeOf(old(mealTrees), name), now, mealData)]
                     else old(mealTrees)
    {
      if !healthy {
        return Err(StorageError);
      }
      var name := MealTreeName(userId);
      mealTrees := mealTrees[name := TreeInsert(TreeOf(mealTrees, name), now, mealData)];
      r := Ok(());
    }

    /** `get_meals`: the user's (timestamp, value) pairs with keys in `start..end`, in tree order. */
    method GetMeals(userId: string, start: I64, end: I64) returns (r: Result<seq<(I64, Bytes)>, StorageError>)
      requires Valid()
      modifies this
      ensures Valid()
      ensures r.Ok? <==> healthy
      ensures verifications == old(verifications) && healthy == old(healthy)
      ensures var name := MealTreeName(userId);
        r.Ok? ==> (r.value == RangeScan(TreeOf(old(mealTrees), name), start, end)
                   && mealTrees == old(mealTrees)[name := TreeOf(old(mealTrees), name)])
      ensures r.Err? ==> mealTrees == old(mealTrees)
    {
      if !healthy {
        return Err(StorageError);
      }
      var name := MealTreeName(userId);
      var tree := TreeOf(mealTrees, name);
      mealTrees := mealTrees[name := tree];
      var meals := ScanRange(tree, start, end);
      r := Ok(meals);
    }

    /** `store_verification`: write "code:expiry" under `phone`, replacing any earlier record. */
    method StoreVerification(phone: string, code: string, expiry: I64) returns (r: Result<(), StorageError>)
      modifies this`verifications
      ensures r.Ok? <==> healthy
      ensures verifications == if r.Ok? then old(verifications)[phone := VerificationRecord(code, expiry)]
                               else old(verifications)
    {
      if !healthy {
        return Err(StorageError);
      }
      verifications := verifications[phone := VerificationRecord(code, expiry)];
      r := Ok(());
    }

    /**
     * `verify_code`: true exactly when the record for `phone` accepts `code` at
     * `now`; the record is then removed, so it verifies only once. A false answer
     * leaves the records as they were.
     */
    method VerifyCode(phone: string, code: string, now: I64) returns (r: Result<bool, StorageError>)
      modifies this`verifications
      ensures r.Err? <==> !healthy
      ensures r.Ok? ==> r.value == CodeAccepted(old(verifications), phone, code, now)
      ensures verifications == if r == Ok(true) then old(verifications) - {phone} else old(verifications)
      ensures r == Ok(true) ==> phone !in verifications
    {
      if !healthy {
        return Err(StorageError);
      }
      if phone in verifications {
        var stored := verifications[phone];
        var parts := Split(stored, ':');
        if |parts| == 2 {
          var storedCode := parts[0];
          var expiry := ParseI64(parts[1]).GetOr(0);
          if storedCode == code && now < expiry {
            verifications := verifications - {phone};
            return Ok(true);
          }
        }
      }
      r := Ok(false);
    }
  }
}
