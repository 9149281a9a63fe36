# OpenWeatherMap MCP: a Dafny model of the weather client and server

The repository pairs a weather tool provider (an MCP server) with a chat
client. The client gives a language model the provider's tools and answers a
user question through a bounded tool-calling loop. This project models both
sides in Dafny 4.11:

- `values.dfy` (`Values`): `Option` and the JSON values exchanged with the
  model, the tool provider and the weather API, plus Python's truthiness of an
  optional string.
- `tool_catalog.dfy` (`ToolCatalog`): `convert_mcp_tools_to_openai`. It maps
  each tool descriptor to a function-calling specification. A missing or empty
  description is replaced by the fixed placeholder.
- `conversation.dfy` (`Conversation`): `process_conversation`.
  - The class `Conversation` holds the history `messages` as a sequence field.
    `ProcessConversation` extends it in place with a loop of at most five
    model queries.
  - `DispatchToolCalls` is the inner loop over the tool calls of one reply.
  - `ProcessConversation` (with its loop body `Pass`) is proved against the
    pure function `Converse`, and `DispatchToolCalls` against the pure
    function `DispatchCalls`. The behaviour the code promises is proved about
    `Converse` in lemmas:
    - only appends
    - queries the model with the full history
    - makes at most five queries
    - how a pass ends
    - one tool turn per call, in order
- `day_runs.dfy` (`DayRuns`): splitting a sequence into maximal runs of
  equal-key neighbours. It proves that the split is a partition into maximal
  runs and the only one. It also proves that extending the input never
  rewrites the earlier runs.
- `weather.dfy` (`Weather`): the two tools of the server.
  - The days clamp, the requested sample count, the two response-code checks
    and the unit symbols.
  - The date token (`dt_txt.split()[0]`, with Python's whitespace set).
  - The day-grouping loop `GroupDays`, proved equal to the first `days`
    maximal date runs.
  - `get_forecast` and `get_current_weather`, reduced to which kind of reply
    they give.

The language model, the JSON decoding of tool-call arguments, the tool
provider's `call_tool`, the HTTP request to the weather API and the text
rendering of the current weather and of one forecast day are parameters. They
are functions the model calls, not code it defines.

- The JSON decoder, the weather request and the two renderers return `None`
  for an exception or a failed request.
- The tool provider returns `ToolOutcome.Raised(message)` for an exception,
  otherwise `ToolOutcome.Success(texts)` with the texts of its content list.
- The language model always answers.

Two points of the client's behaviour:

- A malformed argument payload aborts the pass. `json.loads` (client.py:144)
  sits before the `try` (client.py:149), so its exception escapes
  `process_conversation`. The model ends the pass with `Answer.Aborted(call)`.
  The history then holds the assistant turn and the tool turns of the calls
  before the bad one. Arguments that decode to something other than a JSON
  object fail the same way, at the `.items()` of client.py:146.
- The tool outcome keeps the code's two branches: a content list (possibly
  empty) or an exception.

## Model

| member | source | states |
|---|---|---|
| ToolCatalog.DescriptionOf | client.py:190 | The description is kept when it is truthy and replaced by "Инструмент без описания" when it is `None` or empty; it is never empty |
| ToolCatalog.ConvertTools | client.py:172-196 | One specification per tool, same length and order; each has kind "function", the tool's name, its input schema verbatim and the description rule above |
| ToolCatalog.ConvertToolsRoundTrip | client.py:182-196 | When every tool has a non-empty description, reading the specifications back gives the original catalog, so nothing is lost or reordered |
| ToolCatalog.ConvertToolsAppend | client.py:184-194 | The conversion is element-wise: converting a concatenation is concatenating the conversions |
| Conversation.FinalText | client.py:135-136 | The final answer is the reply content when it is truthy, otherwise "Извините, я не смог сформировать ответ."; never empty |
| Conversation.ToolResultText | client.py:149-159 | A tool outcome becomes its first content text, "Инструмент выполнен, но результат пуст" when it has no content, or "Ошибка при вызове инструмента: " followed by the exception message |
| Conversation.Arguments | client.py:144-146 | The arguments of a call are usable exactly when the decoder yields a JSON object, and they are then that object's fields |
| Conversation.DispatchCalls | client.py:141-166 | A batch yields at most one tool turn per call, and stops early exactly when it aborts at a call |
| Conversation.Converse | client.py:113-169 | The loop with a query budget: it queries the model at most `budget` times, and at least once when the budget allows |
| Conversation.FirstUndecodable | client.py:141-146 | The index of the first call whose arguments do not decode to a JSON object: every earlier call decodes and that one does not |
| Conversation.DispatchAnswersCalls | client.py:141-166 | A batch of calls yields exactly one tool turn per call up to the first undecodable one, in call order, each keyed by its call's id; a raising tool does not stop the batch; the batch stops at the undecodable call with no turn for it or any later call |
| Conversation.ExchangeAnswersEachCall | client.py:128-166 | One reply adds its assistant turn carrying the requested calls, then tool turns whose i-th is keyed by the i-th call's id and holds the text of that call's outcome |
| Conversation.ConverseAppendsTranscript | client.py:128-166 | The history is only appended to: the old history is a prefix of the new one, and what follows it is, for each model reply in order, its assistant turn and its tool turns |
| Conversation.ConverseQueriesModel | client.py:113-122 | At most five model queries (at least one), and each query is given the complete history as it stands at that moment |
| Conversation.ConverseContinues | client.py:113-166 | Every reply but the last asked for tools whose arguments all decoded, and the pass times out exactly when all five replies did so |
| Conversation.ConverseOutcome | client.py:128-144 | How the pass ends, in terms of its last reply (`EndsWith`). It answers exactly when that reply has no tool calls, with its content or the fallback, and its assistant turn stays last in the history. It aborts exactly when that reply has an undecodable call, and it aborts at the first one |
| Conversation.Conversation.ProcessConversation | client.py:100-169 | The loop leaves `messages` equal to the history of `Converse` from the old history with a budget of five and returns its answer; the old history is a prefix of the new one |
| Conversation.Conversation.Pass | client.py:115-166 | One pass appends exactly the exchange of the reply to the current history: its assistant turn, then its tool turns. If it finishes, it leaves exactly the history and answer `Converse` gives for the remaining budget; otherwise what is left to do is `Converse` with one query fewer |
| Conversation.Conversation.DispatchToolCalls | client.py:141-166 | The inner loop appends exactly the tool turns of the batch to `messages` and reports the call it stopped at, if any |
| DayRuns.Runs | server.py:177-192 | Runs are empty exactly for an empty input and never outnumber the elements |
| DayRuns.RunsAreMaximal | server.py:179-192 | The runs concatenate to the input; none is empty; each holds one key; neighbouring runs hold different keys, so a key that comes back after another starts a new run |
| DayRuns.RunSplitIsUnique | server.py:179-192 | Any split with those four properties is the one `Runs` computes |
| DayRuns.RunsOfPrefix | server.py:181-186 | Extending the input never changes the runs already closed, which is why stopping the scan early gives the first runs of the whole list |
| DayRuns.TakeRuns | server.py:181-186 | The first `n` runs are non-empty, hold one key each, have different keys in neighbouring runs and concatenate to a prefix of the input |
| Weather.ClampDays | server.py:149 | The day count is within 1..5, unchanged when it already was, 1 below the range and 5 above it |
| Weather.CurrentRequestShape | server.py:85-91 | The current-weather request goes to "weather" with exactly `q` (the city) and `units`, a different endpoint from the forecast's |
| Weather.ForecastRequestCount | server.py:149-156 | The forecast request goes to "forecast" with `q`, `units` and `cnt`, where `cnt` is eight times the clamped days, a multiple of 8 between 8 and 40 |
| Weather.TempUnit | server.py:108 | The temperature symbol is "°C" exactly when `units` is "metric" and "°F" for any other string |
| Weather.WindUnit | server.py:109 | The wind unit is "м/с" exactly when `units` is "metric" and "миль/ч" for any other string |
| Weather.CodChecksDiffer | server.py:162-166 | The forecast and current-weather code checks disagree: a missing code, the number 200 and the string "200" are each accepted by one check and rejected by the other |
| Weather.CurrentWeather | server.py:70-130 | No data (or an empty response) gives the no-data reply. A present code other than the number 200 gives the API error with the response's message or "Неизвестная ошибка". Otherwise the reply is the rendered text, or a processing error when rendering raises |
| Weather.FirstTokenSkipsSeparators | server.py:179 | The first token is absent exactly when only separators remain; otherwise it is the run of non-separators after the leading separators |
| Weather.FirstWordIsFirstToken | server.py:179 | The date token is absent exactly when `dt_txt` is all whitespace; otherwise it is the non-empty whitespace-free word after the leading whitespace, ended by whitespace or the end of the text |
| Weather.DateKeyOfSample | server.py:179 | A sample has a date exactly when it is an object whose `dt_txt` is a string with a non-whitespace character; the date is then a non-empty word free of whitespace |
| Weather.Iterate | server.py:177-179 | A `for` loop over a list visits its elements in order. Only a list yields samples. Numbers, booleans and `null` raise; so do non-empty objects and strings, whose keys and characters cannot be indexed by "dt_txt" |
| Weather.ForecastItems | server.py:177 | The samples are those of `data["list"]`: none (a raise) when the key is missing, the list's elements when it is a list |
| Weather.GroupByDay | server.py:173-196 | Grouping fails exactly when a sample without a date is reached before `days` days are complete |
| Weather.ForecastCodAccepted | server.py:165 | The forecast accepts only a present code that is a string; a response without a code is rejected |
| Weather.CurrentCodRejected | server.py:97 | The current weather accepts a missing code and the number 200; no response is accepted by both tools |
| Weather.CityOf | server.py:199 | The city and country are read exactly when `data["city"]` is an object holding `name` and `country`, and they are those two fields |
| Weather.FirstUndated | server.py:177-179 | The index of the first sample whose date cannot be read: every earlier sample has a date and that one does not |
| Weather.GroupDays | server.py:173-196 | The grouping loop returns exactly `GroupByDay`: the first `days` maximal date runs when there are more; otherwise all runs, or a failure when an undated sample is reached before the loop stops |
| Weather.DayGroupsAreDateRuns | server.py:173-196 | The groups number min(days, runs), at most `days`. None is empty, each has one date, and neighbouring groups have different dates. Together they are a prefix of the list in order, and the whole list when it has no more than `days` runs |
| Weather.FormatDays | server.py:184-196 | Rendering succeeds exactly when every group renders; the texts are then one per group, in group order |
| Weather.GetForecast | server.py:133-207 | No data gives the no-data reply. A missing code or one other than the string "200" gives the API error with the response's message. A forecast comes exactly when the list iterates, the grouping, every day's rendering and the city lookup succeed. It carries the city, the country and the day texts, at most the clamped number of days; any other case is a processing error |

## Left out

- `main` in client.py: the stdio transport, the MCP session, the console loop with its exit words, the system prompt and the prints. The model starts from a given history.
- The OpenAI client and `session.call_tool`: they are parameters (`LanguageModel`, `ToolProvider`). An exception raised by the model query is not modelled.
- `json.loads` is the `JsonDecoder` parameter. Its failure and a decoded non-object are the same abort.
- `asyncio`: the loop is sequential, so it is modelled synchronously.
- The progress prints of client.py lines 139 and 146.
- Tool-call lists that are `None` and ones that are empty are the same (both falsy). The assistant turn stores the empty sequence.
- Content elements of a tool result are modelled by their texts only. A non-text first element (which raises inside the `try`) is not modelled. Neither is the unreachable "Нет результата" branch.
- `make_weather_request` in server.py: the API key from the environment, the `appid` and `lang` parameters, the URL, the HTTP call, its timeout and the JSON decoding are all the `Fetcher` parameter. A response that decodes to something other than a JSON object is not modelled.
- `format_day_forecast` and the f-string text of both tools (averages, `.1f` formatting, the most common description) are the `DayFormatter` and `WeatherRenderer` parameters. The replies are modelled by kind and payload, not by wording or by the exception message they quote.
- Weather.GetForecast: renders the day groups after the grouping loop rather than inside it. The reply is the same, because any exception in either step gives the one processing-error reply. Only which exception's message is quoted would differ, and the text is not modelled.
- Weather.CurrentWeather: the `except KeyError` catches only key errors. The renderer's `None` stands for a key error, and other exceptions that would escape (an empty `weather` list, a non-number temperature) are not modelled.
- JSON numbers are unbounded integers and exact reals; float rounding is not modelled.
- Logging, `load_dotenv` and the `__main__` blocks.
- The default arguments `units="metric"` (server.py:71) and `days=3`, `units="metric"` (server.py:134): every call of the model passes all its arguments.
- `ToolProvider` is a function of the tool name and arguments, so two identical calls in one batch get identical outcomes. `call_tool` is performed afresh each time, and tool state between calls is not modelled.
- Weather.DateKey: its properties are stated in the lemma `DateKeyOfSample` rather than in its own contract, because the grouping loop evaluates it at every step.
