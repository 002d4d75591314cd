# Voice-agent tools, modelled in Dafny

`tools.py` defines the tools a LiveKit voice agent can call: weather, web
search, news, jokes, e-mail, WhatsApp, YouTube playback, a sum calculator,
an echo and a few stubs (reminders, notification, translation). Each tool
takes its arguments, makes at most one call to an outside service or
library, and turns that call's outcome into a short reply for the agent to
speak.

This project models the deterministic part of each tool. The outside call
becomes an outcome value passed in (an HTTP response or an exception; a
search result list or an exception; delivered or failed), and the tool
becomes a total function, or a method where the source updates variables
step by step, from the arguments and that outcome to the reply. For
`send_email`, `send_whatsapp` and `play_video`, what the tool hands to its
library is part of the result: the SMTP submission, the WhatsApp request,
and the browser URL. For those three tools the model states what is sent
as well as what is said. For the HTTP and search tools the result is the
reply alone. The one request URL they build, the weather URL, is modelled
on its own by `WebTools.WeatherUrl`.

Modules, one per section of `tools.py`:

- `PyStr` (`py_str.dfy`): the Python `str` operations the tools rely on:
  `strip()` over Python's exact whitespace set, `split(sep)`,
  `sep.join(...)`, `startswith`.
- `WebTools` (`web_tools.dfy`): `get_weather`, `search_web`, `fetch_joke`.
- `EmailTool` (`email_tool.dfy`): `send_email`.
- `UtilityTools` (`utility_tools.dfy`): `echo_message`, `calculate_sum`,
  and the `add_reminder`, `list_reminders`, `delete_reminder`,
  `notify_user` and `translate_text` stubs.
- `NewsTool` (`news_tool.dfy`): `read_news`, as a method whose loop appends
  one formatted story per result and then joins, as the source does.
- `MediaTools` (`media_tools.dfy`): `play_video` and `send_whatsapp`.
  `send_whatsapp` is a method that rewrites the phone number in place.
- `Wrappers` (`wrappers.dfy`): `Option`.

Every tool in `tools.py` returns a plain string. The tools that call
outside code do so inside a `try` and turn any failure into a reply, with
one exception. `send_whatsapp` imports `pywhatkit` at
tools.py:253, before its `try`, so a missing module escapes the tool.
`MediaTools.SendWhatsApp` returns `Escaped` in exactly that case.
`play_video` imports inside its `try` (tools.py:231), so there a missing
module only triggers the fallback.

## Model

| member | source | states |
|---|---|---|
| `PyStr.SkipSpace` | tools.py:258 | The first position from which the text no longer starts with Python whitespace; everything skipped is whitespace |
| `PyStr.TrimEnd` | tools.py:258 | The end of the text once its trailing Python whitespace is dropped; everything dropped is whitespace |
| `PyStr.Strip` | tools.py:37 | `str.strip()`: the result is no longer than the input and has no whitespace at either end |
| `PyStr.StripParts` | tools.py:37 | The input is all-whitespace text, then `strip()`'s result, then all-whitespace text |
| `PyStr.StripOfPadded` | tools.py:150 | Stripping text padded with whitespace on both sides gives exactly that text, so `Strip` is uniquely determined |
| `PyStr.StripIdempotent` | tools.py:258 | Stripping twice is the same as stripping once |
| `PyStr.Split` | tools.py:150 | `split(',')` gives one more piece than there are commas, and no piece contains a comma |
| `PyStr.JoinSplit` | tools.py:150 | Joining the pieces of a split with the separator gives the original string |
| `PyStr.SplitJoin` | tools.py:150 | Splitting a join of separator-free pieces gives the pieces back |
| `PyStr.Join` | tools.py:209 | `sep.join(pieces)`: no pieces give the empty string, and otherwise the result starts with the first piece |
| `PyStr.JoinAppend` | tools.py:207-209 | Joining a list that grew by `append` adds the separator and the new piece to the old join |
| `PyStr.JoinPrefix` | tools.py:207-209 | Joining the first n pieces of a list gives a prefix of joining all of them |
| `PyStr.JoinLength` | tools.py:209 | The length of a join is the pieces' total length plus one separator between each pair of neighbours |
| `WebTools.WeatherUrl` | tools.py:33 | The weather request starts with the wttr.in address and ends with `?format=3`, with the unencoded city between the two |
| `WebTools.WeatherUrlNamesCity` | tools.py:33 | The city can be read back out of the request URL unchanged |
| `WebTools.GetWeather` | tools.py:31-42 | Status 200 gives the stripped body, any other status gives "Could not retrieve weather for {city}.", and an exception gives "An error occurred while retrieving weather for {city}." |
| `WebTools.WeatherReplyStripped` | tools.py:31-42 | Whatever the outcome, the reply never starts or ends with whitespace |
| `WebTools.WeatherReportOfPaddedBody` | tools.py:34-37 | A 200 body that is text padded with whitespace reports exactly that text |
| `WebTools.SearchWeb` | tools.py:53-60 | Search results are returned verbatim; an exception gives "An error occurred while searching for '{query}'." |
| `WebTools.FormatJoke` | tools.py:75 | A joke is the setup, " - ", then the punchline |
| `WebTools.FetchJoke` | tools.py:70-81 | A 200 response with a JSON object holding both keys gives the formatted joke; a non-200 status gives the "could not retrieve" reply; a non-object body, a missing key or an exception gives the "error occurred" reply |
| `WebTools.JokeRecognisable` | tools.py:75-81 | A reply contains a dash if and only if a joke was delivered, because neither failure reply contains one |
| `EmailTool.MessageHeaders` | tools.py:104-109 | From, To and Subject are always set; Cc is set only when a CC address is given |
| `EmailTool.SendEmail` | tools.py:96-127 | A missing or empty sender or app password gives "Error: Gmail credentials not configured." and no SMTP step. Otherwise the message is submitted, logged in as the sender, with its headers and with the To address as its only envelope recipient. The reply reports delivery to the To address or quotes the exception |
| `EmailTool.CcNotDeliveredAsWritten` | tools.py:108-119 | When a CC address differs from the To address, `send_email`'s submitted message names it in its Cc header but does not list it among its envelope recipients |
| `EmailTool.EnvelopeRecipients` | tools.py:108-119 | The corrected recipients include the To address and any CC address given, and nobody else |
| `EmailTool.SendEmailCorrected` | tools.py:96-127 | The same reply and the same message as `send_email`; only the envelope recipients differ, and they are the corrected ones |
| `EmailTool.EveryAddresseeDelivered` | tools.py:108-119 | With the correction, an address is an envelope recipient of the submitted message if and only if its To or Cc header names it |
| `EmailTool.MissingCredentialsShortCircuit` | tools.py:99-101 | Without credentials, the run is the same whatever the message arguments and whatever SMTP would have done |
| `UtilityTools.EchoMessage` | tools.py:142-144 | The message comes back unchanged |
| `UtilityTools.Tokens` | tools.py:150 | There is one token more than there are commas; each token is stripped and contains no comma |
| `UtilityTools.TokensOfList` | tools.py:150 | Tokenising a comma-joined list of comma-free items gives the items, each stripped |
| `UtilityTools.TokensExample` | tools.py:150 | "1, 2, 3.5" tokenises to "1", "2", "3.5" |
| `UtilityTools.ParseAll` | tools.py:150 | The list comprehension gives every value in order when all tokens convert; otherwise it gives the error of the first token that does not |
| `UtilityTools.SumErrorIffSomeTokenInvalid` | tools.py:149-153 | The reply starts with "Error calculating sum: " if and only if some token fails to convert |
| `UtilityTools.CalculateSum` | tools.py:149-153 | When every token converts, the reply renders the converted values. When token k is the first that fails, the reply is "Error calculating sum: " followed by that token's conversion error |
| `UtilityTools.ParseAllFirstInvalid` | tools.py:150 | Converting the list fails with the error of its first failing token; later tokens are never looked at |
| `UtilityTools.SumOfValidTokens` | tools.py:150-151 | When every token converts, the reply renders the values of all tokens in order |
| `UtilityTools.AddReminder` | tools.py:157-159 | The reply is "Reminder '{reminder}' set for " followed by exactly the time and a full stop; nothing is stored |
| `UtilityTools.AddReminderReplyAmbiguous` | tools.py:159 | Two different (reminder, time) pairs can produce the same reply |
| `UtilityTools.ListReminders` | tools.py:161-163 | Always "You have no reminders set." |
| `UtilityTools.DeleteReminder` | tools.py:165-167 | The reply is "Reminder with ID " followed by exactly the ID and " deleted."; nothing is deleted |
| `UtilityTools.DeleteReminderNamesId` | tools.py:165-167 | Two replies are equal if and only if the IDs are equal |
| `UtilityTools.NotifyUser` | tools.py:169-171 | The reply is "User notified with message: " followed by exactly the notification |
| `UtilityTools.TranslateText` | tools.py:173-175 | The reply is "Translated '{text}' to " followed by exactly the target language and a full stop; nothing is translated |
| `UtilityTools.TranslateTextReplyAmbiguous` | tools.py:175 | Two different (text, language) pairs can produce the same reply |
| `NewsTool.Get` | tools.py:200-204 | `item.get(key, default)`: the stored value when the key is present, the default otherwise |
| `NewsTool.Summary` | tools.py:203 | The summary is `body` if present, else `snippet`, else "No details available." |
| `NewsTool.Entry` | tools.py:207 | A story is its headline line, "- {title} ({source}, {date})", then "  Summary: {summary}" on a line of its own, then a closing newline |
| `NewsTool.EntryOfEmptyItem` | tools.py:200-207 | A result with no fields shows every default: Untitled, Unknown Source, an empty date, and no details |
| `NewsTool.Entries` | tools.py:199-207 | One formatted story per result, in result order |
| `NewsTool.Report` | tools.py:197-209 | The news text starts with the header "Here is the latest news on {topic}:" |
| `NewsTool.ReadNews` | tools.py:184-214 | An exception gives the "encountered an error" reply; an absent or empty result list gives the "couldn't find" reply; otherwise the reply is the header and one story per result, in order, joined with newlines |
| `NewsTool.ReportAppend` | tools.py:199-209 | One more result appends a newline and its story and leaves the earlier text untouched |
| `NewsTool.ReportPrefix` | tools.py:199-209 | The report of the first n results is a prefix of the whole report |
| `NewsTool.ReportLength` | tools.py:197-209 | The report is as long as the header plus, for each result, a newline and its story |
| `MediaTools.SearchUrl` | tools.py:239 | The fallback URL is the YouTube results URL followed by the unencoded topic |
| `MediaTools.SearchUrlNamesTopic` | tools.py:239 | The topic can be read back out of the fallback URL |
| `MediaTools.PlayVideo` | tools.py:229-241 | Autoplay is always tried first; success gives the "started playing" reply; failure opens the search page for the topic and gives the fallback reply |
| `MediaTools.FallbackOnlyAfterFailure` | tools.py:236-240 | A search page is opened if and only if autoplay failed, and then only the page for the requested topic |
| `MediaTools.NormalizedNumber` | tools.py:257-258 | A number starting with "+" is kept unchanged; any other number becomes "+91" plus the stripped number; the result always starts with "+" |
| `MediaTools.NormalizedIdempotent` | tools.py:257-258 | Normalising a normalised number changes nothing |
| `MediaTools.NormalizedLocalNumber` | tools.py:257-258 | A local number with whitespace around it is dialled as "+91" followed by the number alone |
| `MediaTools.PaddedInternationalNumberGetsSecondCode` | tools.py:257-258 | Because the "+" test reads the unstripped text, a "+" number preceded by whitespace is dialled with "+91" in front of its own code |
| `MediaTools.SendWhatsApp` | tools.py:253-274 | The call escapes if and only if pywhatkit is missing; otherwise pywhatkit gets the normalised number, the message unchanged, a 25-second wait and no tab close, and the reply names the normalised number or reports the failure |

## Left out

- `get_current_time` and `get_current_date` (tools.py:131-139) read the system clock and format with `strftime`, a library formatter. They contain no logic to model.
- The network, SMTP, DuckDuckGo, pywhatkit and webbrowser calls themselves are not modelled. Their outcomes are parameters. The `max_results=5` limit is passed to the news search, and the model accepts a result list of any length.
- `asyncio.to_thread` and `run_in_executor` are not modelled. They only move blocking calls to worker threads and do not change what a tool replies.
- Logging and `print` are not modelled. They are diagnostics with no effect on replies.
- The `context: RunContext` parameter is not modelled, because no tool reads it.
- `UtilityTools.CalculateSum`: `float()` and the float sum are not modelled, because they are floating-point numerics. `float()` is the `parse` parameter and the text of the sum is the `render` parameter, so only the tokenisation and the error path are proved.
- `WebTools.FetchJoke`: a decoded JSON object is modelled as a map from key to the text of its value, so the model does not distinguish JSON value types.
- `MediaTools.PlayVideo`: the model assumes `webbrowser.open` does not raise, since it reports failure through a return value that the source ignores. An exception there would escape the `except` block.
- `NewsTool.ReadNews`: each result is modelled as a dictionary. A result that is not a dictionary, whose `.get` would raise inside the `try`, is not modelled.
- The arguments `get_weather`, `search_web`, `fetch_joke` and `read_news` pass to their HTTP or search call are not part of the model's results. Only the weather URL is modelled, by `WebTools.WeatherUrl`; the joke URL is a constant, and the query, `keywords` and `max_results` are passed through unchanged.

## Findings

| source | as written | input that shows it | evidently intended | confidence | as-written member | corrected member |
|---|---|---|---|---|---|---|
| tools.py:108-119 | The CC address is written into the `Cc` header, but `sendmail` gets only `to_email` as its recipient, so the CC addressee never receives the message | `to_email = "a@example.com"`, `cc_email = "b@example.com"`: b@example.com is in the Cc header but not in the envelope recipients | Deliver to the CC address as well: recipients `[to_email, cc_email]` when a CC is given | medium, not executed | `EmailTool.CcNotDeliveredAsWritten` | `EmailTool.EveryAddresseeDelivered` |

`EmailTool.SendEmail` models `send_email` as written, with the To address as
its only envelope recipient. `EmailTool.SendEmailCorrected` is the same tool
with the corrected recipients (`EmailTool.EnvelopeRecipients`).
