# Query router of the Jarvis voice assistant, in Dafny

This project models the `Brain` class of the assistant (`core/brain.py`), which decides who answers a text query:

- **Registry.** `register_module` records a module under its name, replacing any earlier record. It then appends one (compiled pattern, handler) pair per pattern string to a single list shared by all modules. Order in that list is match priority.
- **Router.** `process_query` scans that list in order. The first pattern that matches anywhere in the query wins, and its handler answers the unmodified query as a `command` outcome. If no pattern matches, the query goes to the plain LLM gateway.
- **Gateway outcome shaping.** `_route_to_llm` and `function_call_to_llm` turn the remote service's reply into an `llm`, `function_call` or `error` outcome. Any exception derived from `Exception` becomes an `error` outcome with a fixed prefix, so such exceptions never escape them.

Files:

- `wrappers.dfy`: `Option`.
- `outcomes.dfy`: handler identities, the tagged `Outcome`, and its `'type'` key.
- `gateway.dfy`: the remote reply as data, plus the two gateway functions and their lemmas.
- `brain.dfy`: registry entries, the first-match specification, the `Brain` class and the registration/routing lemmas.

Abstractions:

- Regular-expression search is the parameter `search(pattern, query)`. It stands for `re.compile(pattern, re.IGNORECASE).search(query)` being truthy, so the case-insensitive flag lives inside it.
- Whether a pattern compiles is the parameter `compiles(pattern)`.
- A handler is an identity `Handler(id)`. Calling it is the parameter `invoke(handler, query)`. Its return value has the opaque type `Response`, which the router carries without looking inside.
- What the remote service returns is the input `Reply`. It is either a `Message` (optional text content, optional function call) or `Raised(detail)`, where `detail` stands for `str(e)` of any exception derived from `Exception` raised while making the request or reading `choices[0].message`.

Two behaviours of `register_module` are easy to miss, and the model keeps both:

- An empty pattern list is accepted. It writes a registry entry and appends nothing.
- A pattern that fails to compile does not undo the registration. The registry entry is written before any pattern is compiled, and the patterns before the failing one stay appended. `RegisterModule` returns the failing index instead of raising `re.error`, and states exactly that partial state.

## Model

| member | source | states |
|---|---|---|
| `Outcomes.TagIdentifiesVariant` | core/brain.py:28-86 | the `'type'` value of an outcome determines its variant, in both directions |
| `Gateway.RouteToLlm` | core/brain.py:37-58 | every reply gives an `llm` or `error` outcome. It is `error` exactly when an exception derived from `Exception` was raised, and then the message is the fixed prefix followed by the exception text, which can be recovered. Otherwise the outcome carries the message content |
| `Gateway.FunctionCallToLlm` | core/brain.py:60-87 | the outcome is `function_call` exactly when the reply requests a function, carrying its name and unparsed arguments. It is `error` exactly when an exception derived from `Exception` was raised, with the function-calling prefix followed by the exception text. Otherwise it is `llm` with the content. No such exception escapes |
| `Gateway.GatewaysAgreeWithoutFunctionCall` | core/brain.py:37-87 | when a reply requests no function, the two gateway calls give the same outcome |
| `Gateway.ErrorPrefixesExclusive` | core/brain.py:54-87 | no message starts with both error prefixes |
| `Gateway.GatewayErrorsDistinguishable` | core/brain.py:54-87 | an error from the plain gateway never equals an error from the function-calling gateway |
| `Brain.Pairs` | core/brain.py:20-21 | registering patterns yields one entry per pattern, in order, each carrying the registering handler |
| `Brain.FirstInvalid` | core/brain.py:20-21 | the index at which compilation stops: every earlier pattern compiles, and the pattern at that index (if any) does not |
| `Brain.PairsExtend` | core/brain.py:20-21 | appending one more compiled pattern extends the entry list by exactly that pattern's entry |
| `Brain.FirstMatch` | core/brain.py:26-27 | the result is the lowest index whose pattern matches the query, and none is returned only when no pattern matches |
| `Brain.Route` | core/brain.py:23-35 | the outcome is `command` exactly when some entry matches. The lowest matching entry's handler answers, applied to the original query. With no match the outcome is exactly the plain gateway's. The outcome is never `function_call` |
| `Brain.Brain.constructor` | core/brain.py:8-11 | a new router has an empty registry and an empty pattern list |
| `Brain.Brain.RegisterModule` | core/brain.py:13-21 | the registry maps the name to exactly (patterns, handler), replacing any earlier entry, and other names are unchanged. The pattern list is the old list followed by one entry per compiled pattern, in argument order, and stops at the first pattern that does not compile, whose index is reported |
| `Brain.Brain.ProcessQuery` | core/brain.py:23-35 | the outcome is the one `Route` specifies. It tests exactly the patterns up to and including the first match (all of them when none matches). It does not change the registry or the pattern list, since it has no modifies clause |
| `Brain.FirstMatchAppend` | core/brain.py:20-27 | appending entries keeps any match found in the old list. A query the old list does not match goes to the first match among the new entries |
| `Brain.RegistrationKeepsClaimedRoute` | core/brain.py:13-32 | once an entry claims a query, a later registration cannot change its route. This holds even for a re-registration of the same name with a new handler: the stale pair keeps winning |
| `Brain.RegistrationClaimsUnclaimedRoute` | core/brain.py:13-35 | a query that no earlier entry matches is answered by the newly registered handler if one of its patterns matches, and by the plain gateway otherwise |

## Left out

- The OpenAI client is not modelled: construction with the API key, the model name, the system prompt, `temperature=0.7` and `max_tokens=500`. It is represented only by the `Reply` it produces.
- `function_call_to_llm`'s `available_functions` is sent only to the remote service, which is abstract here, so it is not a parameter. The returned arguments are not validated against it, and neither does the source.
- Regular-expression compilation and matching semantics, including case folding, are abstract parameters. No regex engine is modelled.
- The text of `str(e)` is an opaque string. Only the fixed prefixes are modelled.
- Handlers are total, side-effect-free functions in the model. An exception raised inside a matched handler propagates uncaught in the source, and is not modelled. A handler runs arbitrary code and could, for example, call `register_module` on the same `Brain`. So "does not change the registry or the pattern list" holds for `process_query`'s own code only.
- Exceptions that derive only from `BaseException` (`KeyboardInterrupt`, `SystemExit`, `asyncio.CancelledError`) are not caught by the `except Exception` clauses at core/brain.py:54 and :83. They propagate from both gateway calls and are not modelled.
- The registry stores the caller's own list object (core/brain.py:16). A later change to that list shows in `command_registry` but not in `command_patterns`. `Module` holds a copied value, so this aliasing is not modelled; nothing in the router reads `command_registry`.
- `Brain.Brain.RegisterModule`: a compile failure is reported as a returned index, not as an `re.error` exception propagating to the caller. The resulting state is the same.
- `Brain.Brain.ProcessQuery`: the `tested` count is ghost, so that "no later pattern is tested" is stated over the model's own loop, not over calls of a real regex engine.
- `core/voice_input.py` and `core/voice_output.py` are not part of this model. Both are I/O wrappers (microphone capture, a Whisper model, WAV and MP3 files, a speech engine, the network) with no routing logic.
