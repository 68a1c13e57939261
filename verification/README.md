# Agent_bot core in Dafny

A model of the e-commerce customer-service agent in `agent.py` and `tools.py`.
It covers three parts:

- **CustomerContext.** The per-session record of what the login controls learnt about the customer.
- **EcommerceAgent.** Turn bookkeeping: how a user message becomes the executor's input, how the chat history is built, which pair of messages is saved on success and on failure, the history view, and reset.
- **The eleven tools.** Each tool's `_run` is a pure function of its arguments and a snapshot of the order, product and customer stores. Each returns one `RESULT: ` text, except that `customer_info` raises `KeyError` when the selected customer record lacks `preferences` or `order_history`.

Modules, one per file:

| file | module | models |
|---|---|---|
| wrappers.dfy | `Wrappers` | `Option`, and Python truthiness of an optional string |
| text.dfy | `Text` | string helpers: `str.strip()` with Python's whitespace set, `join`, the `+=` fold, decimal rendering, `:.2f` of integer cents |
| pydict.dfy | `PyDict` | a Python `dict` with observable insertion order: `get`, `d[k] = v`, `update`, `repr` |
| context.dfy | `CustomerContext` | the `CustomerContext` class |
| agent.dfy | `Agent` | `process_message`, `get_conversation_history`, `reset_conversation` |
| records.dfy | `Records` | order, product and customer records, and the store snapshot |
| tools.dfy | `Tools` | every tool's `_run` |
| registry.dfy | `Registry` | `get_tools`, the tool names, and dispatch from a call to its tool |

Abstractions:

- The session table is an immutable `map`. Every write returns a new table.
- A session record is an ordered association list. Its order matters because it is rendered into the prompt.
- The chat memory is a sequence of tagged messages.
- The agent executor is a parameter: a function from (input, chat history) to an output or a raised error.
- Python's `repr` of a string and `str.title()` are parameters.
- The mock stores are a `Records.Stores` value. Its lookups are maps. Its search, recommendation, cancellation, return and preference-update operations are function fields.
- Prices and totals are integer cents, and `:.2f` is rendered exactly from them. Ratings and dates are kept in their printed form.

Two behaviours of the code worth noting:

- **Weather.** `WeatherTool` defines `_run` twice. The second definition (tools.py:230-231) replaces the first. So the tool always asks for clarification and never reports weather, neither from a provider nor from the hash-based fallback.
- **Chat history.** The history string built in `process_message` reads the raw memory messages (agent.py:163). It is not cut to the ten-turn window, so the model makes no truncation claim.

## Model

| member | source | states |
|---|---|---|
| CustomerContext.Init | agent.py:213-214 | a fresh store has no sessions, so every session reads as the empty record |
| CustomerContext.GetContext | agent.py:216-217 | an unknown session reads as the empty record; a known one reads as its stored record |
| CustomerContext.UpdateContext | agent.py:219-222 | keys of the update take its values; other keys keep their value or stay absent; existing keys keep their position; keys new to the record follow the old ones in the update's order; the session gains an entry even for an empty update; no other session changes |
| CustomerContext.SetCustomerId | agent.py:224-225 | the session's `customer_id` becomes the given id; every other key of the record and every other session is unchanged |
| CustomerContext.SetCustomerEmail | agent.py:227-228 | the session's `customer_email` (not `email`) becomes the given address; every other key of the record and every other session is unchanged |
| CustomerContext.ReadDoesNotCreateButEmptyUpdateDoes | agent.py:216-222 | reading an unknown session creates no entry, while an empty update creates an empty one |
| CustomerContext.UpdateContextIdempotent | agent.py:219-222 | applying the same update twice equals applying it once |
| CustomerContext.LoginRecord | agent.py:224-228 | logging in by id and then by email on a new session gives exactly `{customer_id: id, customer_email: email}` in that order |
| PyDict.Update | agent.py:222 | `dict.update`: merged lookups; existing keys keep their slot, and entries under keys the update lacks are untouched; new keys are appended after the old ones in the update's order; distinct keys preserved |
| Agent.EnhancedInput | agent.py:158-160 | the executor input starts with the message; it equals the message exactly when no non-empty context is given; otherwise the rest is the context label followed by the rendered record |
| Agent.BuildChatHistory | agent.py:162-167 | the loop yields one `Human:`/`AI:` line per human or AI message, in order; other message kinds are skipped |
| Agent.GetConversationHistory | agent.py:195-203 | the loop yields one user/assistant turn per human or AI message, in order |
| Agent.TranscriptIsHistory | agent.py:162-167 | the chat-history string is exactly the turns of `get_conversation_history` rendered line by line; every role is `user` or `assistant` |
| Agent.ProcessMessage | agent.py:155-189 | exactly one (raw message, reply) pair is appended to memory on both paths; on success the reply is the executor's output for the enhanced input and the current chat history; on an exception it is the apology prefix followed by the error text |
| Agent.TurnExtendsViews | agent.py:174-177 | after a turn the history gains a user turn with the raw message and an assistant turn with the reply, and the chat-history string gains the two matching lines |
| Agent.Converse | agent.py:155-189 | a run of messages gives one reply each; memory grows by two messages per turn; the history gains the user/assistant pairs in send order |
| Agent.ResetConversation | agent.py:191-193 | after a reset the memory holds no message at all, so both the history and the chat-history string are empty |
| Tools.OrderStatus | tools.py:63-78 | every answer carries the marker; an unknown id gives the not-found text; a known one gives the header, one line per item in order, the address line and the tracking line |
| Tools.TrackingLineIffTracked | tools.py:75-78 | a found order's status ends with the tracking line when the tracking number is truthy and with the address line otherwise |
| Tools.CancelOrder | tools.py:85-87 | the answer's payload is exactly the store's cancellation message |
| Tools.ProcessReturn | tools.py:94-96 | the answer's payload is exactly the store's return message |
| Tools.UpdatePreferences | tools.py:202-204 | the answer's payload is exactly the store's preference-update message |
| Tools.SearchText | tools.py:103-110 | no products gives the no-products text, which mentions the category only when it is truthy; otherwise the stripped header is followed by one block per product; the count read back equals the number of products; the empty case holds exactly when the answer starts with the no-products lead |
| Tools.HeaderCountReadsBack | tools.py:107-110 | the count in the listing header survives the final `strip()` and reads back as the number of products |
| Tools.SearchProducts | tools.py:103-110 | the answer starts with the no-products lead exactly when the store finds nothing; otherwise it announces how many products the store found |
| Tools.ProductDetails | tools.py:117-133 | an unknown id gives the not-found text; a known one gives the details followed by one bullet line per feature, in order |
| Tools.ProductDetailsEnding | tools.py:130-133 | a product with features ends with its last feature's bullet line; one without ends with the details header |
| Tools.CustomerInfo | tools.py:140-157 | the answer is the fixed not-found text exactly when no customer is selected; a `KeyError` exactly when the selected record lacks `preferences` (reported first) or `order_history`; otherwise the information block for the selected customer |
| Tools.CustomerIdTakesPrecedence | tools.py:141-147 | with a truthy customer id the email is never consulted, even when no customer has that id |
| Tools.EmailOnlyWithoutId | tools.py:141-147 | without a truthy customer id only the email decides; with neither, the customer is not found |
| Tools.AppendSummaries | tools.py:172-175 | the `+=` loop over history ids appends one line per id, in order, and nothing for ids the order store lacks |
| Tools.PresentMembers | tools.py:172-175 | an id is listed exactly when it is in the history and the order store knows it |
| Tools.LinesListPresent | tools.py:172-175 | those lines are exactly the summaries of the history ids the order store knows, in history order |
| Tools.CustomerOrders | tools.py:164-176 | three outcomes: unknown customer, customer without orders, or a header with the customer's name followed by the summaries of the known ids |
| Tools.UnknownHistoryGivesBareHeader | tools.py:168-176 | a non-empty history of unknown ids gives a bare header, not the no-orders text |
| Tools.SearchOrdersByEmail | tools.py:183-195 | the same three outcomes keyed by email; the listing is headed with the email |
| Tools.Weather | tools.py:230-231 | the answer is always the clarification request |
| Tools.WeatherIgnoresCity | tools.py:230-231 | the answer does not depend on the city |
| Tools.RecommendationText | tools.py:237-249 | no recommendations gives the fixed text; otherwise the stripped header is followed by a block for each of the first five recommendations |
| Tools.RecommendationsBeyondFiveIgnored | tools.py:244 | recommendations after the fifth never change the answer |
| Tools.Recommendations | tools.py:237-241 | the fixed no-recommendations text is returned exactly when the store recommends nothing |
| Registry.GetTools | tools.py:251-265 | eleven tools, pairwise distinct, each at its own position in the list |
| Registry.ToolNamesDistinct | tools.py:251-265 | the eleven tools carry eleven pairwise distinct names |
| Registry.Run | tools.py:63-249 | every text a tool returns is a `RESULT: ` text; every tool except `customer_info` always returns a text; `customer_info` raises exactly when the selected customer record lacks a key it indexes |

## Left out

- app.py (UI, widget callbacks, `process_user_message`) and setup.py (file writes, package installation, a server probe): presentation and installation I/O.
- The language model, the ReAct prompt and `AgentExecutor` (agent.py:41-153): library behaviour. The executor is a parameter, and only whether it returns or raises is modelled.
- The ten-turn memory window and any context the executor saves itself: library behaviour. Memory is an unbounded message sequence, and only the two explicit `save_context` calls are modelled.
- Agent.ProcessMessage: only an exception raised by the executor is modelled. Failures in building the input or in saving context are not modelled.
- The mock stores' own rules: how a cancellation, return or preference update is decided, how search matches, and how recommendations are chosen. The stores' module is not part of this model, so these are supplied functions.
- The first `WeatherTool._run` (HTTP call and hash-based fallback, tools.py:210-228): network code that cannot be reached, because the second definition replaces it.
- Registry.Run: the argument validation that the library performs against each tool's input schema happens before `_run` and is not modelled.
- Float prices: prices are integer cents, so float rounding in `:.2f` is not modelled.
- `str.title()` and `repr`: these are parameters, so no claim is made about case mapping or quoting.
- CustomerContext.GetContext: in Python a returned fresh `{}` is not stored, and mutating it changes nothing, while mutating a stored record in place would alias the table. The model returns values and does not model aliasing.
- Process-wide singletons (the stores, the session table) and concurrent sessions: the model is single-threaded and passes state explicitly.
- Counts, quantities and loyalty points are `nat`: negative values from the stores are not modelled.
- CustomerContext.UpdateContext: record values are narrowed from `Dict[str, Any]` to strings, because the only writers (the two setters) store strings.
- Tools.CancelOrder, Tools.ProcessReturn and Tools.UpdatePreferences: the store they call mutates its records, but the model returns only the message and leaves the snapshot unchanged. The stores' own rules are not part of this model.
- Tools.CustomerInfo: only the two keys `preferences` and `order_history` may be missing from a customer record. Every other field of the order, product and customer records is assumed present; a record lacking one would make the source raise `KeyError`.
