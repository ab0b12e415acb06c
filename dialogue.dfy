/**
 * The intent handlers of the food-logging dialogue and the per-conversation
 * session attributes they share: `foods` (the search results), `current_index`
 * (the candidate on offer) and `action`.
 */
module Dialogue {
  import opened Wrappers
  import opened Foods
  import opened FoodLog
  import opened Tokens

  /** The session attribute map; each key may be absent. */
  datatype Attributes = Attributes(foods: Option<seq<Food>>, currentIndex: Option<int>, action: Option<string>)

  /** The attributes a new conversation starts with. */
  const NoAttributes := Attributes(None, None, None)

  /** The only value the handlers store under `action`. */
  const ConfirmAction := "confirm"

  /** Whenever `foods` is present it is non-empty and `current_index` points into it. */
  predicate Valid(a: Attributes) {
    a.foods.Some? ==>
      |a.foods.value| > 0 && a.currentIndex.Some? && 0 <= a.currentIndex.value < |a.foods.value|
  }

  /** `foods[current_index]`: the candidate on offer. */
  function Selected(a: Attributes): Food
    requires Valid(a) && a.foods.Some?
  {
    a.foods.value[a.currentIndex.value]
  }

  /** What a handler says, with the values its f-string interpolates. */
  datatype Utterance =
    | Found(name: string, servingSize: Option<Number>, unitName: string, calories: Number)
    | HowAbout(name: string, servingSize: Option<Number>, unitName: string, calories: Number)
    | CantAccess
    | LoggedThat(name: string)
    | MustTellFirst
    | LoggedQuantity(quantity: Number, unitName: string, name: string)
    | OutOfOptions
    | TellMeFirst

  /** Python's rendering of a value that may be `None`. */
  function OptionText(n: Option<Number>): (s: string)
    ensures n.Some? ==> s == n.value.text
    ensures n.None? ==> s == "None"
  {
    match n
    case Some(x) => x.text
    case None => "None"
  }

  /** The spoken text of an utterance. */
  function Text(u: Utterance): (t: string)
    ensures u.Found? ==> "I found " + u.name + ", with a default serving size of " <= t
    ensures u.HowAbout? ==> "How about " + u.name + ", with a default serving size of " <= t
    ensures u.Found? ==> (t[|"I found " + u.name + ", with a default serving size of "|..]
         == OptionText(u.servingSize) + " " + u.unitName + " and " + u.calories.text + " calories. "
            + "Would you like me to log this item?")
    ensures u.HowAbout? ==> (t[|"How about " + u.name + ", with a default serving size of "|..]
         == OptionText(u.servingSize) + " " + u.unitName + " and " + u.calories.text + " calories. "
            + "Would you like me to log that instead?")
    ensures u.LoggedThat? ==> t == "Wicked, logged that " + u.name + " to Fitbit"
    ensures u.LoggedQuantity? ==> "Wicked, logged " + u.quantity.text + " " + u.unitName + " of " <= t
    ensures u.LoggedQuantity? ==> (t[|"Wicked, logged " + u.quantity.text + " " + u.unitName + " of "|..]
         == u.name + " to Fitbit")
    ensures u == CantAccess ==> t == "I cant access the food log."
    ensures u == MustTellFirst ==> t == "You have to tell me what you ate first"
    ensures u == OutOfOptions ==> t == "I'm out of options. Let's try a different query."
    ensures u == TellMeFirst ==> t == "Tell me what you ate first"
  {
    match u
    case Found(name, size, unitName, calories) =>
      OfferText("I found ", name, size, unitName, calories, "Would you like me to log this item?")
    case HowAbout(name, size, unitName, calories) =>
      OfferText("How about ", name, size, unitName, calories, "Would you like me to log that instead?")
    case CantAccess => "I cant access the food log."
    case LoggedThat(name) => "Wicked, logged that " + name + " to Fitbit"
    case MustTellFirst => "You have to tell me what you ate first"
    case LoggedQuantity(quantity, unitName, name) => QuantityText(quantity, unitName, name)
    case OutOfOptions => "I'm out of options. Let's try a different query."
    case TellMeFirst => "Tell me what you ate first"
  }

  /** The template shared by the two offers, which differ in their opening and closing question. */
  function OfferText(opening: string, name: string, size: Option<Number>, unitName: string, calories: Number,
                     question: string): (t: string)
    ensures opening + name + ", with a default serving size of " <= t
    ensures t[|opening + name + ", with a default serving size of "|..]
         == OptionText(size) + " " + unitName + " and " + calories.text + " calories. " + question
  {
    var lead := opening + name + ", with a default serving size of ";
    var rest := OptionText(size) + " " + unitName + " and " + calories.text + " calories. " + question;
    assert (lead + rest)[..|lead|] == lead;
    assert (lead + rest)[|lead|..] == rest;
    lead + rest
  }

  /** The template of the update-quantity confirmation. */
  function QuantityText(quantity: Number, unitName: string, name: string): (t: string)
    ensures "Wicked, logged " + quantity.text + " " + unitName + " of " <= t
    ensures t[|"Wicked, logged " + quantity.text + " " + unitName + " of "|..] == name + " to Fitbit"
  {
    var lead := "Wicked, logged " + quantity.text + " " + unitName + " of ";
    assert (lead + (name + " to Fitbit"))[..|lead|] == lead;
    assert (lead + (name + " to Fitbit"))[|lead|..] == name + " to Fitbit";
    lead + (name + " to Fitbit")
  }

  /** A response: the speech, and whether it ends the session (`ask` keeps it open). */
  datatype Reply = Reply(speech: Utterance, endSession: bool)

  /** What one handler leaves behind: the attributes, its response if any, and its food-log call if any. */
  datatype Turn = Turn(attrs: Attributes, reply: Option<Reply>, log: Option<LogCall>)

  /** The catalog search answer: its status and its `foods` list, which may be absent. */
  datatype Search = Search(status: int, foods: Option<seq<Food>>)

  /** The search succeeded and found something. */
  predicate HasResults(search: Search) {
    search.status == 200 && search.foods.Some? && |search.foods.value| > 0
  }

  /** The utterance offers `food`: its name, serving size and calories, with the unit in the right number. */
  predicate Offers(u: Utterance, food: Food) {
    && (u.Found? || u.HowAbout?)
    && u.name == food.name && u.servingSize == food.defaultServingSize && u.calories == food.calories
    && (IsOne(u.servingSize) ==> u.unitName == food.defaultUnit.name)
    && (!IsOne(u.servingSize) ==> u.unitName == food.defaultUnit.plural)
  }

  /** The spoken description of a candidate, as the first offer (`Found`) or a later one (`HowAbout`). */
  function Offer(food: Food, first: bool): (u: Utterance)
    ensures Offers(u, food) && u.Found? == first
  {
    var unitName := UnitWord(food.defaultUnit, food.defaultServingSize);
    if first then Found(food.name, food.defaultServingSize, unitName, food.calories)
    else HowAbout(food.name, food.defaultServingSize, unitName, food.calories)
  }

  /** `food_logger` after the token step: stores the results and offers the first one. */
  function FoodLoggerStep(a: Attributes, search: Search): (t: Turn)
    ensures t.log == None
    ensures HasResults(search) ==>
      && t.attrs == a.(foods := search.foods, currentIndex := Some(0))
      && t.reply.Some? && !t.reply.value.endSession
      && t.reply.value.speech.Found? && Offers(t.reply.value.speech, search.foods.value[0])
    ensures search.status != 200 ==> t == Turn(a, Some(Reply(CantAccess, false)), None)
    ensures search.status == 200 && !HasResults(search) ==> t == Turn(a, None, None)
    ensures Valid(a) ==> Valid(t.attrs)
  {
    if search.status == 200 then
      if search.foods.Some? && |search.foods.value| > 0 then
        var first := search.foods.value[0];
        Turn(a.(foods := search.foods, currentIndex := Some(0)), Some(Reply(Offer(first, true), false)), None)
      else
        Turn(a, None, None)
    else
      Turn(a, Some(Reply(CantAccess, false)), None)
  }

  /**
   * The switch-food handler: offers the next candidate when there is one; at the
   * last candidate it says so and leaves the attributes as they were.
   */
  function SwitchStep(a: Attributes): (t: Turn)
    requires Valid(a)
    ensures Valid(t.attrs) && t.log == None
    ensures t.reply.Some? && !t.reply.value.endSession
    ensures a.foods.None? ==> t.attrs == a && t.reply.value.speech == TellMeFirst
    ensures a.foods.Some? && a.currentIndex.value + 1 < |a.foods.value| ==>
      && t.attrs == a.(currentIndex := Some(a.currentIndex.value + 1), action := Some(ConfirmAction))
      && t.reply.value.speech.HowAbout? && Offers(t.reply.value.speech, Selected(t.attrs))
    ensures a.foods.Some? && a.currentIndex.value + 1 >= |a.foods.value| ==>
      t.attrs == a && t.reply.value.speech == OutOfOptions
  {
    if a.foods.Some? then
      var index := a.currentIndex.value + 1;
      if index < |a.foods.value| then
        var next := a.foods.value[index];
        Turn(a.(currentIndex := Some(index), action := Some(ConfirmAction)), Some(Reply(Offer(next, false), false)), None)
      else
        Turn(a, Some(Reply(OutOfOptions, false)), None)
    else
      Turn(a, Some(Reply(TellMeFirst, false)), None)
  }

  /**
   * The confirm handler: logs the candidate on offer with its default serving
   * (1 when absent) and reports success whatever the log call answered.
   */
  function ConfirmStep(a: Attributes, accessToken: string, clock: Clock, logStatus: int, logBody: string): (t: Turn)
    requires Valid(a)
    ensures t.attrs == a
    ensures t.reply.Some? && t.reply.value.endSession
    ensures a.foods.None? ==> t.log == None && t.reply.value.speech == MustTellFirst
    ensures a.foods.Some? ==>
      var food := Selected(a);
      && t.log == Some(LogFood(accessToken, food.foodId, food.defaultUnit.id, ServingOrOne(food), clock, logStatus, logBody))
      && t.reply.value.speech == LoggedThat(food.name)
  {
    if a.foods.Some? then
      var food := Selected(a);
      var call := LogFood(accessToken, food.foodId, food.defaultUnit.id, ServingOrOne(food), clock, logStatus, logBody);
      Turn(a, Some(Reply(LoggedThat(food.name), true)), Some(call))
    else
      Turn(a, Some(Reply(MustTellFirst, true)), None)
  }

  /** The update-quantity handler: logs the candidate on offer with the spoken quantity. */
  function UpdateQuantityStep(a: Attributes, accessToken: string, quantity: Number, clock: Clock,
                              logStatus: int, logBody: string): (t: Turn)
    requires Valid(a) && a.foods.Some?
    ensures t.attrs == a
    ensures t.reply.Some? && t.reply.value.endSession
    ensures var food := Selected(a);
      && t.log == Some(LogFood(accessToken, food.foodId, food.defaultUnit.id, quantity, clock, logStatus, logBody))
      && t.reply.value.speech.LoggedQuantity?
      && t.reply.value.speech.quantity == quantity && t.reply.value.speech.name == food.name
      && (quantity.value == 1.0 ==> t.reply.value.speech.unitName == food.defaultUnit.name)
      && (quantity.value != 1.0 ==> t.reply.value.speech.unitName == food.defaultUnit.plural)
  {
    var food := Selected(a);
    var unitName := UnitWord(food.defaultUnit, Some(quantity));
    var call := LogFood(accessToken, food.foodId, food.defaultUnit.id, quantity, clock, logStatus, logBody);
    Turn(a, Some(Reply(LoggedQuantity(quantity, unitName, food.name), true)), Some(call))
  }

  /** The catalog search request: the bearer token and the `query` text, sent as given. */
  datatype SearchRequest = SearchRequest(accessToken: string, query: string)

  /** The session attributes of one conversation, updated in place by the handlers. */
  class Session {
    var foods: Option<seq<Food>>
    var currentIndex: Option<int>
    var action: Option<string>

    function Attrs(): Attributes
      reads this
    {
      Attributes(foods, currentIndex, action)
    }

    constructor ()
      ensures Attrs() == NoAttributes
    {
      foods, currentIndex, action := None, None, None;
    }

    /**
     * The log-food handler (`food_logger`): refreshes the token if needed, searches
     * the catalog for `foodItem` with the token it got, and stores the results.
     */
    method LogFood(store: TokenStore, foodItem: string, auth: Auth, search: Search)
      returns (reply: Option<Reply>, request: SearchRequest)
      requires Valid(Attrs()) && store.Valid()
      modifies this, store
      ensures Valid(Attrs()) && store.Valid()
      ensures store.params == TokenStep(old(store.params), auth)
      ensures request == SearchRequest(store.params[AccessKey], foodItem)
      ensures Attrs() == FoodLoggerStep(old(Attrs()), search).attrs
      ensures reply == FoodLoggerStep(old(Attrs()), search).reply
    {
      var accessToken, _, _ := store.HandleTokens(auth);
      request := SearchRequest(accessToken, foodItem);
      if search.status == 200 {
        var results := search.foods;
        if results.Some? && |results.value| > 0 {
          var first := results.value[0];
          var unitName := UnitWord(first.defaultUnit, first.defaultServingSize);
          reply := Some(Reply(Found(first.name, first.defaultServingSize, unitName, first.calories), false));
          foods := results;
          currentIndex := Some(0);
        } else {
          reply := None;
        }
      } else {
        reply := Some(Reply(CantAccess, false));
      }
    }

    /** The confirm handler: reads the session, never writes it. */
    method ConfirmFood(store: TokenStore, auth: Auth, clock: Clock, logStatus: int, logBody: string)
      returns (reply: Reply, log: Option<LogCall>)
      requires Valid(Attrs()) && store.Valid()
      modifies store
      ensures store.Valid()
      ensures store.params == if foods.Some? then TokenStep(old(store.params), auth) else old(store.params)
      ensures Some(reply) == ConfirmStep(Attrs(), store.params[AccessKey], clock, logStatus, logBody).reply
      ensures log == ConfirmStep(Attrs(), store.params[AccessKey], clock, logStatus, logBody).log
    {
      if foods.Some? {
        var accessToken, _, _ := store.HandleTokens(auth);
        var food := foods.value[currentIndex.value];
        var amount := ServingOrOne(food);
        var call := FoodLog.LogFood(accessToken, food.foodId, food.defaultUnit.id, amount, clock, logStatus, logBody);
        log := Some(call);
        reply := Reply(LoggedThat(food.name), true);
      } else {
        log := None;
        reply := Reply(MustTellFirst, true);
      }
    }

    /** The update-quantity handler; it reads `foods` without checking for it. */
    method UpdateQuantity(store: TokenStore, auth: Auth, quantity: Number, clock: Clock, logStatus: int, logBody: string)
      returns (reply: Reply, log: LogCall)
      requires Valid(Attrs()) && foods.Some? && store.Valid()
      modifies store
      ensures store.Valid()
      ensures store.params == TokenStep(old(store.params), auth)
      ensures Some(reply) == UpdateQuantityStep(Attrs(), store.params[AccessKey], quantity, clock, logStatus, logBody).reply
      ensures Some(log) == UpdateQuantityStep(Attrs(), store.params[AccessKey], quantity, clock, logStatus, logBody).log
    {
      var accessToken, _, _ := store.HandleTokens(auth);
      var food := foods.value[currentIndex.value];
      var unitName := UnitWord(food.defaultUnit, Some(quantity));
      log := FoodLog.LogFood(accessToken, food.foodId, food.defaultUnit.id, quantity, clock, logStatus, logBody);
      reply := Reply(LoggedQuantity(quantity, unitName, food.name), true);
    }

    /** The switch-food handler; at the last candidate it changes nothing. */
    method SwitchFood() returns (reply: Reply)
      requires Valid(Attrs())
      modifies this
      ensures Valid(Attrs())
      ensures Attrs() == SwitchStep(old(Attrs())).attrs
      ensures Some(reply) == SwitchStep(old(Attrs())).reply
    {
      if foods.Some? {
        var index := currentIndex.value + 1;
        if index < |foods.value| {
          var next := foods.value[index];
          var unitName := UnitWord(next.defaultUnit, next.defaultServingSize);
          reply := Reply(HowAbout(next.name, next.defaultServingSize, unitName, next.calories), false);
          currentIndex := Some(index);
          action := Some(ConfirmAction);
        } else {
          reply := Reply(OutOfOptions, false);
        }
      } else {
        reply := Reply(TellMeFirst, false);
      }
    }
  }
}
