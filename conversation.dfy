/**
 * Whole conversations: intents arriving one after another against the session
 * attributes and the shared parameter store. Each intent carries the remote
 * answers its handler receives.
 */
module Conversation {
  import opened Wrappers
  import opened Foods
  import opened FoodLog
  import opened Tokens
  import opened Dialogue

  /** The session attributes and the parameter store between two intents. */
  datatype State = State(attrs: Attributes, store: map<string, string>)

  predicate Good(s: State) {
    Valid(s.attrs) && HasCredentials(s.store)
  }

  /** An intent, with the remote answers and the clock its handler sees. */
  datatype Event =
    | LogFoodIntent(foodItem: string, auth: Auth, search: Search)
    | ConfirmFoodIntent(auth: Auth, clock: Clock, logStatus: int, logBody: string)
    | UpdateQuantityIntent(quantity: Number, auth: Auth, clock: Clock, logStatus: int, logBody: string)
    | SwitchFoodIntent

  /** What handling one intent produces: the new state, the response and the remote calls made. */
  datatype Outcome = Outcome(state: State, reply: Option<Reply>, search: Option<SearchRequest>, log: Option<LogCall>)

  /**
   * Dispatch of one intent to its handler. `None` is the update-quantity handler
   * raising because no search has stored `foods`.
   */
  function Handle(s: State, e: Event): (o: Option<Outcome>)
    requires Good(s)
    ensures o.None? <==> e.UpdateQuantityIntent? && s.attrs.foods.None?
    ensures o.Some? ==> Good(o.value.state)
  {
    match e
    case LogFoodIntent(foodItem, auth, search) =>
      var store := TokenStep(s.store, auth);
      var t := FoodLoggerStep(s.attrs, search);
      Some(Outcome(State(t.attrs, store), t.reply, Some(SearchRequest(store[AccessKey], foodItem)), t.log))
    case ConfirmFoodIntent(auth, clock, logStatus, logBody) =>
      var store := if s.attrs.foods.Some? then TokenStep(s.store, auth) else s.store;
      var t := ConfirmStep(s.attrs, store[AccessKey], clock, logStatus, logBody);
      Some(Outcome(State(t.attrs, store), t.reply, None, t.log))
    case UpdateQuantityIntent(quantity, auth, clock, logStatus, logBody) =>
      if s.attrs.foods.None? then None
      else
        var store := TokenStep(s.store, auth);
        var t := UpdateQuantityStep(s.attrs, store[AccessKey], quantity, clock, logStatus, logBody);
        Some(Outcome(State(t.attrs, store), t.reply, None, t.log))
    case SwitchFoodIntent =>
      var t := SwitchStep(s.attrs);
      Some(Outcome(State(t.attrs, s.store), t.reply, None, None))
  }

  /** The state the next intent sees: a response that ends the session discards its attributes. */
  function Next(o: Outcome): (s: State)
    ensures s.store == o.state.store
    ensures o.reply.Some? && o.reply.value.endSession ==> s.attrs == NoAttributes
    ensures !(o.reply.Some? && o.reply.value.endSession) ==> s.attrs == o.state.attrs
  {
    if o.reply.Some? && o.reply.value.endSession then o.state.(attrs := NoAttributes) else o.state
  }

  /** The final state and every response of a run of intents; `None` if a handler raised. */
  datatype Trace = Trace(final: State, replies: seq<Option<Reply>>)

  function Run(s: State, events: seq<Event>): (r: Option<Trace>)
    requires Good(s)
    ensures r.Some? ==> Good(r.value.final) && |r.value.replies| == |events|
    decreases |events|
  {
    if events == [] then Some(Trace(s, []))
    else
      match Handle(s, events[0])
      case None => None
      case Some(o) =>
        match Run(Next(o), events[1..])
        case None => None
        case Some(rest) => Some(Trace(rest.final, [o.reply] + rest.replies))
  }

  /** A run of `n` switch-food intents. */
  function Switches(n: nat): (events: seq<Event>)
    ensures |events| == n && forall k :: 0 <= k < n ==> events[k] == SwitchFoodIntent
  {
    seq(n, _ => SwitchFoodIntent)
  }

  /**
   * However many switch-food intents follow a search, the index stays a valid
   * position: it moves forward one per intent and stops at the last candidate,
   * and the list and the store are never touched.
   */
  lemma {:induction false} SwitchesStayInBounds(s: State, n: nat)
    requires Good(s) && s.attrs.foods.Some?
    ensures Run(s, Switches(n)).Some?
    ensures var final := Run(s, Switches(n)).value.final;
      var last := |s.attrs.foods.value| - 1;
      && final.attrs.foods == s.attrs.foods
      && final.store == s.store
      && final.attrs.currentIndex ==
           Some(if s.attrs.currentIndex.value + n <= last then s.attrs.currentIndex.value + n else last)
    decreases n
  {
    if n > 0 {
      var o := Handle(s, SwitchFoodIntent).value;
      assert Next(o) == o.state;
      assert Switches(n)[1..] == Switches(n - 1);
      SwitchesStayInBounds(o.state, n - 1);
    }
  }

  /**
   * Every amount a handler speaks is followed by the singular unit name exactly
   * when it equals 1; for a well-formed number that is exactly when it is
   * spoken as "1" or "1.0".
   */
  lemma SpokenUnitsAgree(s: State, e: Event)
    requires Good(s)
    requires Handle(s, e).Some? && Handle(s, e).value.reply.Some?
    ensures var o := Handle(s, e).value;
      var u := o.reply.value.speech;
      (u.Found? || u.HowAbout? || u.LoggedQuantity?) ==>
        && o.state.attrs.foods.Some?
        && var unit := Selected(o.state.attrs).defaultUnit;
           var amount := if u.LoggedQuantity? then Some(u.quantity) else u.servingSize;
           && (IsOne(amount) ==> u.unitName == unit.name)
           && (!IsOne(amount) ==> u.unitName == unit.plural)
           && ((amount.None? || amount.value.WellFormed()) ==>
                 var spoken := OptionText(amount);
                 && (spoken == "1" || spoken == "1.0" ==> u.unitName == unit.name)
                 && (spoken != "1" && spoken != "1.0" ==> u.unitName == unit.plural))
  {
  }

  /**
   * Confirming never writes the session, yet the response ends the session, so
   * a second confirm in a row finds no `foods` and logs nothing.
   */
  lemma ConfirmTwice(s: State, auth1: Auth, auth2: Auth, clock1: Clock, clock2: Clock,
                     status1: int, status2: int, body1: string, body2: string)
    requires Good(s) && s.attrs.foods.Some?
    ensures var o := Handle(s, ConfirmFoodIntent(auth1, clock1, status1, body1)).value;
      && o.state.attrs == s.attrs
      && o.log.Some?
      && o.reply == Some(Reply(LoggedThat(Selected(s.attrs).name), true))
      && var o2 := Handle(Next(o), ConfirmFoodIntent(auth2, clock2, status2, body2)).value;
         && o2.log == None
         && o2.reply == Some(Reply(MustTellFirst, true))
  {
  }

  /** The confirm response and the session are the same whatever the log call answered. */
  lemma ConfirmIgnoresLogResult(s: State, auth: Auth, clock: Clock, status1: int, status2: int, body1: string, body2: string)
    requires Good(s)
    ensures var o1 := Handle(s, ConfirmFoodIntent(auth, clock, status1, body1)).value;
      var o2 := Handle(s, ConfirmFoodIntent(auth, clock, status2, body2)).value;
      o1.reply == o2.reply && o1.state == o2.state
  {
  }

  /**
   * A failed search from a fresh conversation creates no session: the next
   * confirm is told to name a food first and logs nothing.
   */
  lemma FailedSearchThenConfirm(store: map<string, string>, item: string, auth: Auth, search: Search,
                                auth2: Auth, clock: Clock, status: int, body: string)
    requires HasCredentials(store) && search.status != 200
    ensures var r := Run(State(NoAttributes, store), [LogFoodIntent(item, auth, search), ConfirmFoodIntent(auth2, clock, status, body)]);
      && r.Some?
      && r.value.replies == [Some(Reply(CantAccess, false)), Some(Reply(MustTellFirst, true))]
      && r.value.final.attrs == NoAttributes
  {
    var s := State(NoAttributes, store);
    var o := Handle(s, LogFoodIntent(item, auth, search)).value;
    assert Next(o).attrs == NoAttributes;
    var o2 := Handle(Next(o), ConfirmFoodIntent(auth2, clock, status, body)).value;
    var events := [LogFoodIntent(item, auth, search), ConfirmFoodIntent(auth2, clock, status, body)];
    var rest := [ConfirmFoodIntent(auth2, clock, status, body)];
    assert events[1..] == rest && events[0] == LogFoodIntent(item, auth, search);
    assert rest[1..] == [] && rest[0] == ConfirmFoodIntent(auth2, clock, status, body);
    assert Handle(Next(o), rest[0]) == Some(o2);
    assert Run(Next(o2), rest[1..]) == Some(Trace(Next(o2), []));
    assert Run(Next(o), rest) == Some(Trace(Next(o2), [o2.reply] + []));
  }

  /**
   * At the last candidate a switch-food intent says it is out of options but
   * leaves the session as it was, so a following confirm still logs that last
   * candidate.
   */
  lemma ConfirmAfterExhaustion(s: State, auth: Auth, clock: Clock, status: int, body: string)
    requires Good(s) && s.attrs.foods.Some? && s.attrs.currentIndex.value == |s.attrs.foods.value| - 1
    ensures var o := Handle(s, SwitchFoodIntent).value;
      && o.reply == Some(Reply(OutOfOptions, false))
      && Next(o) == s
      && var food := Selected(s.attrs);
         Handle(Next(o), ConfirmFoodIntent(auth, clock, status, body)).value.log
           == Some(LogFood(TokenStep(s.store, auth)[AccessKey], food.foodId, food.defaultUnit.id,
                           ServingOrOne(food), clock, status, body))
  {
  }

  /**
   * After a 401 probe the search is sent with the refreshed access token, and
   * the store holds the refreshed pair.
   */
  lemma SearchUsesRefreshedToken(s: State, item: string, auth: Auth, search: Search)
    requires Good(s) && auth.probeStatus == Unauthorized
    ensures var o := Handle(s, LogFoodIntent(item, auth, search)).value;
      && o.search == Some(SearchRequest(auth.refreshed.accessToken, item))
      && o.state.store[AccessKey] == auth.refreshed.accessToken
      && o.state.store[RefreshKey] == auth.refreshed.refreshToken
  {
  }

  /** The banana candidate of a one-result search. */
  const Banana := Food(4, "Banana", Number(105.0, "105"), Some(Number(1.0, "1")), Unit(17, "medium", "mediums"))

  /** Searching for a banana offers it with a serving of "1 medium" and keeps the session open at index 0. */
  lemma BananaOffered(store: map<string, string>, auth: Auth)
    requires HasCredentials(store)
    ensures var o := Handle(State(NoAttributes, store), LogFoodIntent("banana", auth, Search(200, Some([Banana])))).value;
      && o.state.attrs.currentIndex == Some(0)
      && o.reply == Some(Reply(Found("Banana", Some(Number(1.0, "1")), "medium", Number(105.0, "105")), false))
  {
  }

  /** Updating the banana's quantity to 3 speaks the plural, with the number as Python renders a float. */
  lemma BananaQuantity(store: map<string, string>, auth: Auth, clock: Clock, status: int, body: string)
    requires HasCredentials(store)
    ensures var s := State(Attributes(Some([Banana]), Some(0), None), store);
      var o := Handle(s, UpdateQuantityIntent(Number(3.0, "3.0"), auth, clock, status, body)).value;
      o.reply == Some(Reply(LoggedQuantity(Number(3.0, "3.0"), "mediums", "Banana"), true))
  {
  }

  /** The words spoken when the banana is logged as three. */
  lemma BananaText()
    ensures Text(LoggedQuantity(Number(3.0, "3.0"), "mediums", "Banana")) == "Wicked, logged 3.0 mediums of Banana to Fitbit"
  {
  }
}
