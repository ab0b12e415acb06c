# Nick Ate: the food-logging dialogue, modelled in Dafny

This project models the core of a voice skill that logs foods to a fitness
tracker (`nickate_lambda.py`). A user names a food. The skill searches the
tracker's food catalog and offers the first match. The user can then switch
to the next match, confirm the offer, or log it with a different quantity.
Before each remote call, the skill makes sure its access token is still
usable.

The model is made of these modules:

- `MealType`: `get_meal_type_id`, the table from the local hour to a meal slot from 1 to 6. It is proved equal to a reference table of half-open windows.
- `Foods`: the food candidates and the singular/plural rule for unit names.
- `QueryText`: Python's `str` of an integer, `"&".join(...)` and `str.split`, with a parser proved to read a query string back into its pairs.
- `FoodLog`: `log_food`. It builds the five-key query string in its fixed order and maps a remote 201 to status 200.
- `Tokens`: `handle_tokens` / `refresh_tokens` over the parameter store. `TokenStep` is the pure meaning, and `TokenStore` is a class whose methods update the store in place.
- `Dialogue`: the session attributes (`foods`, `current_index`, `action`) and the four handlers. Each handler is a pure step function, and `Session` is a class whose methods change its fields as the handlers change the attribute map.
- `Conversation`: the dispatch of intents to handlers (`Handle`) and runs of many intents (`Run`), with the dialogue's invariants and scenarios proved over them.

Remote answers are inputs: the probe status, the refreshed token pair, the search status and list, and the log status and body. So are the clock's hour and date. Speech is a structured `Utterance`, and `Dialogue.Text` renders each one with the handler's template.

A JSON number is `Number(value, text)`: its value, and the text Python's `str` prints for it. The text matters because the skill speaks a parsed quantity as a float, so 3 is spoken "3.0". `Number.WellFormed` ties the two together where it matters: the value is 1 exactly when the text is "1" or "1.0".

### Behaviour as the code has it

- The out-of-options branch of the switch handler only rebinds a local (`nickate_lambda.py:246`). The session keeps its `foods` and `current_index`, and the reply keeps the session open. A following confirm therefore logs the last candidate (`Conversation.ConfirmAfterExhaustion`).
- The confirm and update-quantity handlers never clear the session, and they ignore the result of `log_food`. What stops a repeated confirm is that their replies end the session. A new session starts with no attributes (`Conversation.Next`, `Conversation.ConfirmTwice`).
- `food_logger` returns no response when the search succeeds with an empty or absent list. It has no "not found" reply.
- `log_food` reports 200 for a remote 201 and passes every other status through. A remote 200 is therefore also reported as 200 (`FoodLog.LogStatusReport`).
- The update-quantity handler reads `foods` without checking for it. It refreshes the token first and then raises. In `Conversation.Handle` this is `None`, and `Dialogue.Session.UpdateQuantity` requires a session.
- A refresh happens only when the probe answers 401. No other probe failure is reported. The token returned is whatever the store holds afterwards.

## Model

| member | source | states |
|---|---|---|
| `MealType.MealTypeId` | nickate_lambda.py:63-75 | every hour gets a meal type between 1 and 6 |
| `MealType.MealTypeIdIsTable` | nickate_lambda.py:63-75 | for every hour the classifier equals the first window of the table [6,11)→1, [11,12)→2, [12,16)→3, [16,18)→4, [18,21)→5 holding it, else 6 |
| `MealType.MealTypeIdExactly` | nickate_lambda.py:63-73 | meal type 1 to 5 is chosen exactly for the hours of its half-open window (11 gives 2, 12 gives 3) |
| `MealType.AnytimeOutsideWindows` | nickate_lambda.py:74-75 | meal type 6 is chosen exactly for hours before 6 or from 21 on |
| `QueryText.NatText` | nickate_lambda.py:102 | the rendering of a natural number is non-empty, all decimal digits, and canonical: it starts with '0' only for 0 |
| `QueryText.NatTextReadsBack` | nickate_lambda.py:102 | the digits of a natural number, read as a decimal numeral, give back that number |
| `QueryText.IntText` | nickate_lambda.py:102 | the rendering of an integer is non-empty, uses only digits and '-', starts with '-' exactly for negatives, and is canonical: no leading zero before a longer number or after the sign, and no bare "-" |
| `QueryText.IntTextReadsBack` | nickate_lambda.py:102 | the text of any integer, read as a signed decimal numeral, gives back that integer |
| `QueryText.Join` | nickate_lambda.py:102 | joining no pieces gives the empty string, and a join begins with its first piece |
| `QueryText.Field` | nickate_lambda.py:102 | a field is the key, then '=', then the value |
| `QueryText.QueryString` | nickate_lambda.py:102 | the query string of no pairs is empty, and otherwise it begins with the first pair's field |
| `QueryText.Split` | nickate_lambda.py:102 | splitting yields a non-empty list of pieces, none holding the separator, that join back to the input |
| `QueryText.SplitJoin` | nickate_lambda.py:102 | splitting a join gives back the pieces when no piece holds the separator |
| `QueryText.ParseQueryString` | nickate_lambda.py:102 | parsing a `key=value&...` string gives back every pair in order when keys have no '&' or '=' and values no '&' |
| `FoodLog.ReportedStatus` | nickate_lambda.py:112-124 | a remote 201 is reported as 200; every other status is reported unchanged |
| `FoodLog.LogFood` | nickate_lambda.py:77-124 | the request carries the caller's token, and the result carries the remote body |
| `FoodLog.LogStatusReport` | nickate_lambda.py:112-124 | the reported status is 200 exactly when the remote said 200 or 201; a reported status other than 200 is the remote one |
| `FoodLog.LogParams` | nickate_lambda.py:91-97 | the five parameters are foodId, mealTypeId, unitId, amount and date, in that order, with mealTypeId rendered from the meal type of the hour |
| `FoodLog.LogQueryRoundTrip` | nickate_lambda.py:91-105 | the query holds exactly foodId, mealTypeId, unitId, amount and date in that order; the three integers read back as the food id, the meal type of the hour and the unit id, and the amount and date as sent |
| `Foods.ServingOrOne` | nickate_lambda.py:196 | a confirmed food is logged with its default serving size, or with 1 when that is absent |
| `Foods.UnitWord` | nickate_lambda.py:217 | the singular unit name is chosen when the amount equals 1, and the plural otherwise (also for an absent amount) |
| `Tokens.Refreshed` | nickate_lambda.py:57-60 | after the refresh writes, both tokens hold the new pair and every other entry is as before |
| `Tokens.TokenStep` | nickate_lambda.py:41-60 | the store keeps its keys; it is unchanged unless the probe says 401; after a 401 both tokens hold the refreshed pair; no other entry changes |
| `Tokens.RefreshCall` | nickate_lambda.py:41-52 | the refresh call is made exactly after a 401 and sends the stored client id, client secret and refresh token |
| `Tokens.TokenReturned` | nickate_lambda.py:51-54 | the token returned is the refreshed one after a 401 and the stored one otherwise; the store changes only after a 401 |
| `Tokens.TokenStore.Get` | nickate_lambda.py:18-21 | reading a parameter gives its stored value |
| `Tokens.TokenStore.Put` | nickate_lambda.py:23-25 | writing a parameter overwrites that one entry |
| `Tokens.TokenStore.RefreshTokens` | nickate_lambda.py:57-60 | the store afterwards holds the refreshed access and refresh tokens, and everything else is as before |
| `Tokens.TokenStore.HandleTokens` | nickate_lambda.py:41-54 | the probe uses the stored token, the store becomes `TokenStep` of the old one, and the returned token is the store's access token afterwards |
| `Dialogue.Text` | nickate_lambda.py:147-249 | each reply is spoken with its handler's template: an offer opens with "I found" or "How about" and the food's name, then speaks the serving size (or "None"), the unit, the calories and its yes/no question; the quantity confirmation speaks the amount, the unit, and ends with the food's name and " to Fitbit"; the fixed messages word for word |
| `Dialogue.OptionText` | nickate_lambda.py:148 | a serving size that is present is spoken as its text, and an absent one as Python's "None" |
| `Dialogue.OfferText` | nickate_lambda.py:147-151 | an offer begins with its opening, the food's name and ", with a default serving size of ", and the rest is exactly the serving size, the unit, " and ", the calories, " calories. " and the question |
| `Dialogue.QuantityText` | nickate_lambda.py:221 | the quantity confirmation begins with "Wicked, logged", the quantity's text, the unit and " of ", and the rest is exactly the food's name and " to Fitbit" |
| `Dialogue.Offer` | nickate_lambda.py:141-151 | an offer names the food, its serving size and calories, with the unit singular exactly when the serving size is 1 |
| `Dialogue.FoodLoggerStep` | nickate_lambda.py:136-159 | on a 200 with results it stores the whole list, sets the index to 0 and offers the first; on any other status the session is unchanged and it says it cannot access the log; on a 200 with no list it is unchanged and returns nothing; the invariant is kept |
| `Dialogue.SwitchStep` | nickate_lambda.py:230-251 | it advances the index and sets the action to 'confirm' only when a next candidate exists, then offers that candidate; otherwise it says it is out of options (or asks for a food first) and changes nothing; the index stays in bounds |
| `Dialogue.ConfirmStep` | nickate_lambda.py:191-202 | without foods it logs nothing and asks for a food first; with foods it logs the selected food with its unit id and serving size (1 by default) and reports success whatever the log answered; it never changes the session and always ends it |
| `Dialogue.UpdateQuantityStep` | nickate_lambda.py:210-222 | it logs the selected food with the given quantity and speaks that quantity with the singular unit exactly when it equals 1; the session is unchanged and ends |
| `Dialogue.Session.LogFood` | nickate_lambda.py:126-159 | the store takes its token step, the search is sent with the resulting access token, and the attributes and reply are those of `FoodLoggerStep` |
| `Dialogue.Session.ConfirmFood` | nickate_lambda.py:189-202 | the token step runs only when foods are present; the reply and the log call are those of `ConfirmStep`; the session object is not modified |
| `Dialogue.Session.UpdateQuantity` | nickate_lambda.py:208-222 | the token step runs first; the reply and the log call are those of `UpdateQuantityStep`; the session object is not modified |
| `Dialogue.Session.SwitchFood` | nickate_lambda.py:228-251 | the attributes and the reply are those of `SwitchStep`, and the invariant holds afterwards |
| `Conversation.Handle` | nickate_lambda.py:269-275 | handling an intent keeps the invariant; it fails exactly for an update-quantity intent without foods |
| `Conversation.Next` | nickate_lambda.py:202 | a reply that ends the session leaves the next intent no attributes; any other reply leaves them as they are |
| `Conversation.Run` | nickate_lambda.py:269-277 | every run of intents that does not fail keeps the invariant and yields one reply per intent |
| `Conversation.SwitchesStayInBounds` | nickate_lambda.py:230-243 | after any number n of switch intents the list and store are untouched and the index is min(index + n, last) |
| `Conversation.SpokenUnitsAgree` | nickate_lambda.py:145-236 | at all three call sites (lines 145, 217 and 236), wherever an amount is spoken, the unit is the selected food's singular name exactly when the amount is 1, and its plural otherwise; for a well-formed number, exactly when it is spoken as "1" or "1.0" |
| `Conversation.ConfirmTwice` | nickate_lambda.py:191-202 | a confirm logs the selected food and leaves the attributes, and the confirm right after it logs nothing and asks for a food |
| `Conversation.ConfirmIgnoresLogResult` | nickate_lambda.py:198-199 | for a log answer whose body is JSON, the confirm reply and the resulting state do not depend on the log call's status or body |
| `Conversation.FailedSearchThenConfirm` | nickate_lambda.py:157-159 | a failed search creates no session, so the next confirm asks for a food first |
| `Conversation.ConfirmAfterExhaustion` | nickate_lambda.py:244-246 | at the last candidate a switch says it is out of options and leaves the state as it was, and a following confirm logs that last candidate |
| `Conversation.SearchUsesRefreshedToken` | nickate_lambda.py:127-134 | after a 401 probe the search is sent with the refreshed token, and the store holds the refreshed pair |
| `Conversation.BananaOffered` | nickate_lambda.py:140-155 | a one-result search for a banana offers "Banana", a serving of 1 "medium" and 105 calories, at index 0 |
| `Conversation.BananaQuantity` | nickate_lambda.py:215-221 | a quantity of 3 for the banana is spoken with the plural "mediums" |
| `Conversation.BananaText` | nickate_lambda.py:221 | the banana logged as three is spoken "Wicked, logged 3.0 mediums of Banana to Fitbit" |

## Left out

- HTTP calls, the parameter-store client and the voice SDK's response builder: they are replaced by inputs (statuses, token pairs, result lists, log bodies), a map for the store, and `Reply(speech, endSession)` values.
- Base64 encoding of the client credentials (nickate_lambda.py:29): `RefreshRequest` carries the client id and secret and leaves the Authorization header opaque.
- Time zones and `datetime`/`strftime` (nickate_lambda.py:84-88): the hour and the date string are given as a `Clock`.
- `float(quantity)` (nickate_lambda.py:215) and Python's rendering of numbers: the quantity arrives as a `Number` whose text is already rendered. Floating-point comparison with 1 is modelled as exact equality of reals.
- Logging output (`print`) is not modelled.
- The launch, stop and cancel handlers only return constant strings. The log-food handler's `UserResponse` slot is read but never used.
- lambda.py (the daily-summary feature) and token_handler.py (a copy of the token code) are not part of this model.
- JSON shape: `foodId`, `name`, `calories` and `defaultUnit` are assumed present and well typed. Only `defaultServingSize` may be absent.
- Tokens.TokenStore.HandleTokens: a missing store parameter, which raises in the source, is excluded by requiring all four parameters. A refresh answer without `access_token` or `refresh_token` is not modelled: the store write then raises and the handler fails.
- Dialogue.Session.UpdateQuantity: requires `foods`, where the source raises `KeyError`. The token refresh that happens before the raise is not modelled in `Conversation.Run`, which stops at the failure.
- Conversation.Next: the voice platform's behaviour is an assumption. A reply that ends the session starts the next conversation with no attributes. A missing response (`food_logger` returning nothing) leaves the attributes as they were.
- The search endpoint URL and its encoding: `SearchRequest` records only the token and the query text.
- Concurrent refreshes from overlapping conversations: handlers are modelled one at a time.
- Response bodies that are not JSON: the model assumes every remote body parses. In the source, `.json()` raises on any other body, and the handler then fails with no reply. This applies to the food-log answer at nickate_lambda.py:109, which is read before its status is checked, so the confirm and update-quantity handlers fail too. It also applies to the search answer at line 137 (read only on a 200) and the refresh answer at line 39.
- Conversation.ConfirmIgnoresLogResult: holds only for log answers whose body is JSON. A body that is not JSON makes the source raise at nickate_lambda.py:109, so the reply depends on the body in that case.
- A missing or non-numeric `quantity` slot: `float(quantity)` at nickate_lambda.py:215 then raises after the token step has run, and the handler fails. The model takes the quantity as a `Number` and has no failure for this case.
- Python's rendering of a JSON number is not computed from its value. `Number.WellFormed` only ties the value 1 to the texts "1" and "1.0", and `Conversation.SpokenUnitsAgree` states its spoken-text clause for well-formed amounts.
