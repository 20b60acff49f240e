/**
 * The meal endpoints of the phone-login server. Each handler runs after the
 * bearer gate, with the caller's `Claims` already extracted. JSON encoding and
 * decoding of meals are parameters.
 */
module MealApi {
  import opened Wrappers
  import opened Numbers
  import opened ByteOrder
  import opened Http
  import opened Token
  import opened Models
  import opened Db

  /** The default look-back of `get_meals`: seven days, in seconds. */
  const WEEK: int := 7 * 86400

  /** Response bodies of these endpoints. */
  datatype ApiBody =
    | Meals(meals: seq<Meal>)
    | MealBody(meal: Meal)
    | Profile(profile: UserProfile)
    | Error(error: string)
    | Message(message: string)

  /** The optional bounds of a `get_meals` query. */
  datatype TimeRangeQuery = TimeRangeQuery(startDate: Option<Instant>, endDate: Option<Instant>)

  /** Subtracting a week from the end date must stay representable (chrono panics otherwise). */
  predicate RangeDefaultable(q: TimeRangeQuery, now: Instant) {
    q.startDate.Some? || q.endDate.GetOr(now) >= I64_MIN + WEEK
  }

  /**
   * The range `get_meals` reads: the end date defaults to now, and the start
   * date to a week before the (possibly defaulted) end date.
   */
  function EffectiveRange(q: TimeRangeQuery, now: Instant): (r: (Instant, Instant))
    requires RangeDefaultable(q, now)
    ensures q.endDate.Some? ==> r.1 == q.endDate.value
    ensures q.endDate.None? ==> r.1 == now
    ensures q.startDate.Some? ==> r.0 == q.startDate.value
    ensures q.startDate.None? ==> r.1 - r.0 == WEEK
  {
    var end := q.endDate.GetOr(now);
    var start := if q.startDate.Some? then q.startDate.value else end - WEEK;
    (start, end)
  }

  /** `filter_map` over the scanned pairs: the meals that decode, in scan order. */
  function DecodeMeals(data: seq<(I64, Bytes)>, decode: Bytes -> Option<Meal>): (meals: seq<Meal>)
    ensures |meals| <= |data|
    ensures forall m | m in meals :: exists i | 0 <= i < |data| :: decode(data[i].1) == Some(m)
  {
    if data == [] then []
    else
      var rest := DecodeMeals(data[1..], decode);
      assert forall m | m in rest :: exists i | 0 <= i < |data| :: decode(data[i].1) == Some(m) by {
        forall m | m in rest
          ensures exists i | 0 <= i < |data| :: decode(data[i].1) == Some(m)
        {
          var i :| 0 <= i < |data[1..]| && decode(data[1..][i].1) == Some(m);
          assert data[i + 1] == data[1..][i];
        }
      }
      match decode(data[0].1)
      case Some(m) => [m] + rest
      case None => rest
  }

  /** Decoding distributes over concatenation, so it keeps the store's order. */
  lemma {:induction false} DecodeMealsAppend(a: seq<(I64, Bytes)>, b: seq<(I64, Bytes)>, decode: Bytes -> Option<Meal>)
    ensures DecodeMeals(a + b, decode) == DecodeMeals(a, decode) + DecodeMeals(b, decode)
  {
    if a != [] {
      DecodeMealsAppend(a[1..], b, decode);
      assert (a + b)[0] == a[0] && (a + b)[1..] == a[1..] + b;
    } else {
      assert a + b == b;
    }
  }

  /** A record that fails to decode is dropped and nothing else changes. */
  lemma UndecodableDropped(a: seq<(I64, Bytes)>, x: (I64, Bytes), b: seq<(I64, Bytes)>, decode: Bytes -> Option<Meal>)
    requires decode(x.1).None?
    ensures DecodeMeals(a + [x] + b, decode) == DecodeMeals(a + b, decode)
  {
    DecodeMealsAppend(a + [x], b, decode);
    DecodeMealsAppend(a, [x], decode);
    DecodeMealsAppend(a, b, decode);
  }

  /** When every record decodes, the meals are exactly the decoded records, one for one. */
  lemma {:induction false} AllDecodeOneToOne(data: seq<(I64, Bytes)>, decode: Bytes -> Option<Meal>)
    requires forall i | 0 <= i < |data| :: decode(data[i].1).Some?
    ensures |DecodeMeals(data, decode)| == |data|
    ensures forall i | 0 <= i < |data| :: DecodeMeals(data, decode)[i] == decode(data[i].1).value
  {
    if data != [] {
      AllDecodeOneToOne(data[1..], decode);
      assert decode(data[0].1).Some?;
      forall i | 1 <= i < |data|
        ensures DecodeMeals(data, decode)[i] == decode(data[i].1).value
      {
        assert data[1..][i - 1] == data[i];
      }
    }
  }

  /** A record in the scan that decodes to `m` puts `m` in the answer. */
  lemma {:induction false} DecodedRecordListed(data: seq<(I64, Bytes)>, x: (I64, Bytes), m: Meal, decode: Bytes -> Option<Meal>)
    requires x in data && decode(x.1) == Some(m)
    ensures m in DecodeMeals(data, decode)
  {
    if data[0] != x {
      assert x in data[1..];
      DecodedRecordListed(data[1..], x, m, decode);
    }
  }

  /** `get_meals`: the caller's meals whose insertion time lies in the effective range. */
  method GetMeals(db: AppDb, claims: Claims, query: TimeRangeQuery, now: Instant, decode: Bytes -> Option<Meal>)
    returns (resp: Response<ApiBody>)
    requires db.Valid() && RangeDefaultable(query, now)
    modifies db
    ensures db.Valid() && db.verifications == old(db.verifications) && db.healthy == old(db.healthy)
    ensures var name := MealTreeName(claims.sub);
      db.mealTrees == if old(db.healthy) then old(db.mealTrees)[name := TreeOf(old(db.mealTrees), name)] else old(db.mealTrees)
    ensures var (start, end) := EffectiveRange(query, now);
      var tree := TreeOf(old(db.mealTrees), MealTreeName(claims.sub));
      resp == if old(db.healthy) then Response(OK, Meals(DecodeMeals(RangeScan(tree, start, end), decode)))
              else Response(INTERNAL_SERVER_ERROR, Error("Failed to fetch meals"))
  {
    var (start, end) := EffectiveRange(query, now);
    var data := db.GetMeals(claims.sub, start, end);
    match data
    case Ok(records) =>
      resp := Response(OK, Meals(DecodeMeals(records, decode)));
    case Err(_) =>
      resp := Response(INTERNAL_SERVER_ERROR, Error("Failed to fetch meals"));
  }

  /** The body of a `POST /meals`. */
  datatype AddMealRequest = AddMealRequest(name: string, timestamp: Option<Instant>,
                                           items: seq<MealItem>, notes: Option<string>)

  /**
   * The meal `add_meal` builds: owned by the caller whatever the body says,
   * timestamped by the body or else now, with the body's name, items and notes.
   */
  function BuildMeal(req: AddMealRequest, owner: string, id: string, now: Instant): (meal: Meal)
    ensures meal.userId == owner && meal.id == id
    ensures meal.timestamp == (if req.timestamp.Some? then req.timestamp.value else now)
    ensures meal.name == req.name && meal.items == req.items && meal.notes == req.notes
  {
    Meal(id, owner, req.name, req.timestamp.GetOr(now), req.items, req.notes)
  }

  /**
   * `add_meal`: build the meal (with a fresh `id`), encode it, and insert it in
   * the caller's tree under the current second, not under the meal's own
   * timestamp. 500 when encoding or storing fails, 201 with the meal otherwise.
   */
  method AddMeal(db: AppDb, claims: Claims, req: AddMealRequest, id: string, now: Instant, encode: Meal -> Option<Bytes>)
    returns (resp: Response<ApiBody>)
    requires db.Valid()
    modifies db
    ensures db.Valid() && db.verifications == old(db.verifications) && db.healthy == old(db.healthy)
    ensures var meal := BuildMeal(req, claims.sub, id, now);
      var name := MealTreeName(claims.sub);
      && (encode(meal).None? ==>
            resp == Response(INTERNAL_SERVER_ERROR, Error("Failed to process meal data")) && db.mealTrees == old(db.mealTrees))
      && (encode(meal).Some? && !old(db.healthy) ==>
            resp == Response(INTERNAL_SERVER_ERROR, Error("Failed to save meal")) && db.mealTrees == old(db.mealTrees))
      && (encode(meal).Some? && old(db.healthy) ==>
            resp == Response(CREATED, MealBody(meal))
            && db.mealTrees == old(db.mealTrees)[name := TreeInsert(TreeOf(old(db.mealTrees), name), now, encode(meal).value)])
  {
    var meal := BuildMeal(req, claims.sub, id, now);
    var encoded := encode(meal);
    if encoded.None? {
      return Response(INTERNAL_SERVER_ERROR, Error("Failed to process meal data"));
    }
    var stored := db.AddMeal(meal.userId, encoded.value, now);
    if stored.Err? {
      return Response(INTERNAL_SERVER_ERROR, Error("Failed to save meal"));
    }
    resp := Response(CREATED, MealBody(meal));
  }

  /**
   * A meal just added is listed by a later `get_meals` of its owner exactly
   * when the query range holds the second it was added in (for non-negative
   * times), provided decoding inverts encoding; the meal's own timestamp
   * plays no part.
   */
  lemma AddedMealListed(tree: seq<MealEntry>, meal: Meal, data: Bytes, now: Instant, start: Instant, end: Instant,
                        decode: Bytes -> Option<Meal>)
    requires SortedTree(tree) && decode(data) == Some(meal)
    requires 0 <= now && 0 <= start && 0 <= end
    ensures var t := TreeInsert(tree, now, data);
      (now, data) in RangeScan(t, start, end) <==> start <= now < end
    ensures start <= now < end ==> meal in DecodeMeals(RangeScan(TreeInsert(tree, now, data), start, end), decode)
  {
    var t := TreeInsert(tree, now, data);
    LookupAfterInsert(tree, now, data, now);
    LookupIsMember(t, now, data);
    RangeScanNonNegative(t, start, end, now, data);
    if start <= now < end {
      DecodedRecordListed(RangeScan(t, start, end), (now, data), meal, decode);
    }
  }

  /** The endpoints that exist but are not implemented. */
  datatype Stub = DeleteMeal | NutrientSummary | GetTargets | UpdateTargets

  /** Every stub answers 501 with a message naming what is missing. */
  function StubResponse(endpoint: Stub): (resp: Response<ApiBody>)
    ensures resp.status == NOT_IMPLEMENTED && resp.body.Message?
  {
    match endpoint
    case DeleteMeal => Response(NOT_IMPLEMENTED, Message("Delete meal not implemented yet"))
    case NutrientSummary => Response(NOT_IMPLEMENTED, Message("Nutrient summary not implemented yet"))
    case GetTargets => Response(NOT_IMPLEMENTED, Message("Get targets not implemented yet"))
    case UpdateTargets => Response(NOT_IMPLEMENTED, Message("Update targets not implemented yet"))
  }

  /** `get_profile`: the caller's phone is both the id and the phone; no targets yet. */
  function GetProfile(claims: Claims, now: Instant): (resp: Response<ApiBody>)
    ensures resp.status == OK && resp.body.Profile?
    ensures resp.body.profile.id == claims.sub && resp.body.profile.phone == claims.sub
    ensures resp.body.profile.targets.None? && resp.body.profile.createdAt == now
  {
    Response(OK, Profile(UserProfile(claims.sub, claims.sub, now, None)))
  }
}
