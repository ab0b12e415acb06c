/**
 * `log_food`: the POST that files a food entry with the remote food log, and
 * how its answer is reported back to the caller.
 */
module FoodLog {
  import opened Foods
  import opened MealType
  import opened QueryText

  /** The two readings of "now" in the America/New_York zone: the hour and `%Y-%m-%d`. */
  datatype Clock = Clock(hour: int, date: string)

  /** A date as `strftime('%Y-%m-%d')` writes it. */
  predicate IsDate(date: string) {
    && |date| == 10
    && date[4] == '-' && date[7] == '-'
    && forall k :: 0 <= k < 10 && k != 4 && k != 7 ==> '0' <= date[k] <= '9'
  }

  /** The POST to the food-log endpoint: the bearer token and the query string after `?`. */
  datatype LogRequest = LogRequest(accessToken: string, query: string)

  /** The dictionary `log_food` returns: a status code and the remote JSON body. */
  datatype LogResult = LogResult(statusCode: int, body: string)

  /** One call of `log_food`: what was sent and what came back. */
  datatype LogCall = LogCall(request: LogRequest, result: LogResult)

  /** The five query parameters, in the order the request dictionary lists them. */
  function LogParams(foodId: int, unitId: int, amount: Number, clock: Clock): (params: seq<(string, string)>)
    ensures |params| == 5
    ensures params[0].0 == "foodId" && params[1].0 == "mealTypeId" && params[2].0 == "unitId"
    ensures params[0].1 == IntText(foodId) && params[2].1 == IntText(unitId)
    ensures params[1].1 == IntText(MealTypeId(clock.hour))
    ensures params[3] == ("amount", amount.text)
    ensures params[4] == ("date", clock.date)
  {
    [ ("foodId", IntText(foodId)),
      ("mealTypeId", IntText(MealTypeId(clock.hour))),
      ("unitId", IntText(unitId)),
      ("amount", amount.text),
      ("date", clock.date) ]
  }

  /** The status reported for a remote status: "created" becomes 200, anything else passes through. */
  function ReportedStatus(remoteStatus: int): (code: int)
    ensures remoteStatus == 201 ==> code == 200
    ensures remoteStatus != 201 ==> code == remoteStatus
  {
    if remoteStatus == 201 then 200 else remoteStatus
  }

  /**
   * `log_food(access_token, food_id, unit_id, quantity)` with the clock and the
   * remote answer (`remoteStatus`, `remoteBody`) given as inputs.
   */
  function LogFood(accessToken: string, foodId: int, unitId: int, amount: Number, clock: Clock,
                   remoteStatus: int, remoteBody: string): (call: LogCall)
    ensures call.request.accessToken == accessToken
    ensures call.result.body == remoteBody
  {
    var query := QueryString(LogParams(foodId, unitId, amount, clock));
    LogCall(LogRequest(accessToken, query), LogResult(ReportedStatus(remoteStatus), remoteBody))
  }

  /**
   * The reported status is 200 exactly when the remote said 200 or 201, and any
   * other reported status is the remote one: a failure is never masked.
   */
  lemma LogStatusReport(accessToken: string, foodId: int, unitId: int, amount: Number, clock: Clock,
                        remoteStatus: int, remoteBody: string)
    ensures var code := LogFood(accessToken, foodId, unitId, amount, clock, remoteStatus, remoteBody).result.statusCode;
      && (code == 200 <==> remoteStatus == 200 || remoteStatus == 201)
      && (code != 200 ==> code == remoteStatus)
      && (remoteStatus != 201 ==> code == remoteStatus)
  {
  }

  /**
   * The query string carries exactly `foodId`, `mealTypeId`, `unitId`, `amount`
   * and `date`, in that order, and reading it back gives each value as sent,
   * `mealTypeId` being the meal type of the clock's hour.
   */
  lemma LogQueryRoundTrip(accessToken: string, foodId: int, unitId: int, amount: Number, clock: Clock,
                          remoteStatus: int, remoteBody: string)
    requires '&' !in amount.text
    requires IsDate(clock.date)
    ensures var parsed := ParseQuery(LogFood(accessToken, foodId, unitId, amount, clock, remoteStatus, remoteBody).request.query);
      && |parsed| == 5
      && parsed[0] == ("foodId", IntText(foodId))
      && parsed[1] == ("mealTypeId", IntText(MealTypeId(clock.hour)))
      && parsed[2] == ("unitId", IntText(unitId))
      && parsed[3] == ("amount", amount.text)
      && parsed[4] == ("date", clock.date)
      && IntValue(parsed[0].1) == foodId
      && IntValue(parsed[1].1) == MealTypeId(clock.hour)
      && IntValue(parsed[2].1) == unitId
  {
    var params := LogParams(foodId, unitId, amount, clock);
    LogParamsEncodable(foodId, unitId, amount, clock);
    ParseQueryString(params);
    IntTextReadsBack(foodId);
    IntTextReadsBack(MealTypeId(clock.hour));
    IntTextReadsBack(unitId);
  }

  /** No rendered integer holds an ampersand. */
  lemma IntTextHasNoAmpersand(i: int)
    ensures '&' !in IntText(i)
  {
    var text := IntText(i);
    forall k | 0 <= k < |text| ensures text[k] != '&' {
      assert IsIntChar(text[k]);
    }
  }

  /** The five log parameters can be carried by a query string. */
  lemma LogParamsEncodable(foodId: int, unitId: int, amount: Number, clock: Clock)
    requires '&' !in amount.text
    requires IsDate(clock.date)
    ensures Encodable(LogParams(foodId, unitId, amount, clock))
  {
    var params := LogParams(foodId, unitId, amount, clock);
    IntTextHasNoAmpersand(foodId);
    IntTextHasNoAmpersand(MealTypeId(clock.hour));
    IntTextHasNoAmpersand(unitId);
    assert '&' !in clock.date by {
      forall k | 0 <= k < 10 ensures clock.date[k] != '&' { }
    }
    assert '&' !in "foodId" && '=' !in "foodId";
    assert '&' !in "mealTypeId" && '=' !in "mealTypeId";
    assert '&' !in "unitId" && '=' !in "unitId";
    assert '&' !in "amount" && '=' !in "amount";
    assert '&' !in "date" && '=' !in "date";
    forall k | 0 <= k < 5
      ensures '&' !in params[k].0 && '=' !in params[k].0 && '&' !in params[k].1
    {
      if k == 0 {
      } else if k == 1 {
      } else if k == 2 {
      } else if k == 3 {
      } else {
      }
    }
  }
}
