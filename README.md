# MCP agent backend: a Dafny model

This project models the logic of a chat backend that connects a language
model to tools served by MCP (Model Context Protocol) servers. The model
covers:

- the list of configured MCP servers kept in `mcp_servers.json` and
  edited through the `/api/mcp-servers` endpoints: url normalisation,
  add with its duplicate check, delete by name, update by name, and the
  listing that hides API keys;
- the LLM configuration endpoints: validating a submitted configuration
  into the dictionary that is saved, and the GET view that hides a
  non-empty key;
- `create_llm_from_config`, as a pure function from a configuration
  dictionary and the host (environment variables, installed client
  packages) to a client descriptor or the error it raises;
- the per-session conversation history store (`ConversationHistoryManager`);
- the merge of server lists from the environment, the servers file and the
  caller (`Config.load_mcp_servers`, and the placeholder variant in the
  command-line agent);
- the fold that picks the final answer out of the agent's event stream;
- the chat endpoints' handling of model output: flattening content to
  text, the non-streaming answer and tool list, and the streaming
  bookkeeping (characters sent one by one, each tool reported once, an
  unknown tool ending the stream);
- the static registry of bundled MCP servers.

Dictionaries are `map<string, Json>` over a small JSON value type. Python
truthiness, `dict.get`, `str.rstrip`, `str.strip`, `str.lower` and `str(int)`
are written out in `json.dfy` and `text.dfy`. Reading and writing files,
the process environment, and the agent's event stream are inputs.

Files:

| file | module | models |
|---|---|---|
| `wrappers.dfy` | Wrappers | `Option`, `Result` |
| `http.dfy` | Http | HTTP errors raised by the endpoints |
| `json.dfy` | Json | JSON values, records, truthiness |
| `text.dfy` | Text | the string builtins the core uses |
| `server_list.dfy` | ServerList | `/api/mcp-servers` endpoints |
| `llm_settings.dfy` | LlmSettings | `/api/llm-config` endpoints |
| `llm_factory.dfy` | LlmFactory | `create_llm_from_config` |
| `history.dfy` | History | `ConversationHistoryManager` |
| `config.dfy` | Config | `Config.load_mcp_servers` |
| `dynamic_agent.dfy` | DynamicAgent | `load_mcp_servers_config`, `run_query` |
| `events.dfy` | Events | the agent's messages as the loops see them |
| `chat_content.dfy` | ChatContent | `/api/chat` and `/api/chat/stream` output handling |
| `registry.dfy` | Registry | `mcp_servers/registry.py` |

## Model

| member | source | states |
|---|---|---|
| ServerList.NormalizeUrl | backend/api.py:820-825 | the stored url always ends in "/mcp", and what precedes that suffix is a prefix of the submitted url |
| ServerList.NormalizeUrlIdempotent | backend/api.py:820-825 | normalising a normalised url changes nothing |
| ServerList.NormalizeUrlKeepsMcp | backend/api.py:820-825 | a url that ends in "/mcp" once trailing slashes are removed only loses those slashes |
| ServerList.NormalizeUrlReplacesSse | backend/api.py:820-825 | a url ending in "/sse" (after trailing slashes) loses that suffix; the rest is kept as it is when it already ends in "/mcp", and otherwise loses its trailing slashes and gets "/mcp" appended |
| ServerList.SseOfPlainBaseNormalized | backend/api.py:820-825 | for a base ending neither in a slash nor in "/mcp", the "/sse" endpoint is stored as the "/mcp" endpoint of the same base |
| ServerList.NormalizeUrlAppendsMcp | backend/api.py:823-825 | a url ending in neither suffix gets "/mcp" appended after its trailing slashes are removed |
| ServerList.ServerConfig | backend/api.py:828-833 | the stored record has exactly name, normalised url, and api_key exactly when a non-empty key was submitted |
| ServerList.WithoutApiKey | backend/api.py:857 | the returned record is the stored one minus its api_key entry |
| ServerList.PublicView | backend/api.py:955-956 | the returned record has every entry but api_key, plus has_api_key telling whether a truthy key is stored |
| ServerList.ListServers | backend/api.py:797-806 | the count is the number of configured servers, one public view per server in order, and no api_key is exposed |
| ServerList.AddServer | backend/api.py:835-864 | rejected with 400 and the duplicate detail exactly when a stored record has the same name or the submitted url; otherwise exactly the new record is appended and the total is one more |
| ServerList.AddKeepsEndpointsDistinctForNormalUrls | backend/api.py:842-850 | a list with no repeated name or url keeps that property after an accepted add whose url is already normalised |
| ServerList.SseUrlNormalized | backend/api.py:820-825 | "http://host/sse" is stored as "http://host/mcp" |
| ServerList.AddAdmitsDuplicateEndpoint | backend/api.py:842-847 | a url not already in normal form, submitted twice under two different names (with any keys), passes the duplicate test the second time, leaving two records with the same stored url |
| ServerList.SseUrlAdmittedTwice | backend/api.py:842-847 | "http://host/sse" added as "docs" and then as "docs2" is accepted both times, leaving two records for "http://host/mcp" |
| ServerList.AddRejectsRepeatedNormalUrl | backend/api.py:842-847 | a url already in normal form, submitted again under any name, is caught by the duplicate test |
| ServerList.CheckedAddKeepsEndpointsDistinct | backend/api.py:842-850 | with the stored url compared against the normalised url, an accepted add never repeats a name or url |
| ServerList.AddServerNormalized | backend/api.py:842-850 | the add with the normalised comparison: fails exactly on a clash, appends the record otherwise, and keeps names and urls distinct |
| ServerList.KeepOthers | backend/api.py:887 | no kept record has the deleted name, and the list does not grow |
| ServerList.KeepOthersConcat | backend/api.py:887 | filtering a concatenation filters each part, keeping the order |
| ServerList.KeepOthersCounts | backend/api.py:887 | every record without the name keeps its multiplicity, and every record with it is gone |
| ServerList.KeepOthersLength | backend/api.py:886-890 | the length is unchanged exactly when no record has the name, and then the list is unchanged |
| ServerList.DeleteServer | backend/api.py:878-900 | 404 "No MCP servers configured" without a file, 404 not-found exactly when no record has the name, otherwise the filtered list, which is shorter |
| ServerList.AddThenDelete | backend/api.py:842-890 | deleting the name just added restores the list as it was before the add |
| ServerList.UpdateServer | backend/api.py:930-962 | 404 without a file or without a match; otherwise only the first record with the name is replaced, and the response is the new record's public view |
| LlmSettings.StoredType | backend/api.py:1000-1031 | the lower-cased type is kept when it is ollama, gemini or groq; anything else is stored as openai |
| LlmSettings.SetLlmConfig | backend/api.py:1000-1047 | 400 exactly when the model is empty, or the key is missing for a provider other than Ollama; the saved dictionary has type, stripped model and active; api_key exactly for non-Ollama providers; base_url (defaulted) exactly for Ollama; api_base only for OpenAI when given |
| LlmSettings.OllamaConfig | backend/api.py:1003-1008 | the Ollama dictionary has no key and a base url defaulting to http://localhost:11434 |
| LlmSettings.KeyedConfig | backend/api.py:1014-1030 | the Gemini and Groq dictionaries carry the submitted key |
| LlmSettings.OpenAiConfig | backend/api.py:1036-1043 | the OpenAI dictionary carries the key, and api_base exactly when it was given |
| LlmSettings.GetLlmConfig | backend/api.py:985-990 | api_key is returned only when it is falsy, every other entry is returned unchanged, and has_api_key is the truthiness of the stored key |
| LlmSettings.SavedConfigResolves | backend/api.py:1045-1053 | a saved configuration never fails resolution for a missing key, and it resolves to the submitted provider with the stripped model |
| LlmFactory.ProviderFor | src/llm_factory.py:68-158 | ollama, groq and gemini select their provider; every other type selects OpenAI |
| LlmFactory.ResolveKey | src/llm_factory.py:92 | the configured key is used when truthy, otherwise the provider's environment variable when non-empty; a resolved key is always truthy |
| LlmFactory.ClassifyGeminiError | src/llm_factory.py:132-156 | INVALID_ARGUMENT or any case of "model" means an invalid model; otherwise API_KEY or any case of "authentication" means an invalid key; otherwise a generic failure |
| LlmFactory.CreateLlmFromConfig | src/llm_factory.py:65-175 | the provider comes from the lower-cased type; the model defaults to gpt-4o; a missing package fails first; Ollama takes no key and base_url with its default; Groq uses its fixed base url; OpenAI uses api_base only when truthy; a key-needing provider without a key fails with its exact message; only Ollama and Gemini can report a missing package, and only when it is absent; with type, package and key in place the result is a client exactly when the constructor does not raise, and otherwise the error the provider reports: Ollama's unreachable-server error with its base url, Gemini's classified rejection with the model, or the constructor's own error |
| Registry.Lookup | mcp_servers/registry.py:19 | no result exactly when the name is absent; a result is paired with the name |
| Registry.Keys | mcp_servers/registry.py:24 | the names in declaration order |
| Registry.GetMcpServer | mcp_servers/registry.py:17-19 | no server exactly when the lower-cased name is not registered |
| Registry.ListAvailableServers | mcp_servers/registry.py:22-24 | exactly math, weather, web, people, jack in that order |
| Registry.GetMcpServerIgnoresCase | mcp_servers/registry.py:17-19 | a name and its lower-cased form find the same server |
| Registry.ListedServersResolve | mcp_servers/registry.py:8-24 | every listed name finds a server, and each registered name (math, weather, web, people, jack) finds the server registered under it |
| Config.LoadMcpServers | src/config.py:38-69 | environment servers, then file servers, then additional servers, with no de-duplication; an unparseable source contributes nothing and the length is the sum |
| DynamicAgent.LoadMcpServersConfig | ai_mcp_dynamic.py:157-189 | never empty; one placeholder record replaces an empty environment-plus-file list; the additional servers always come last |
| DynamicAgent.RunQuery | ai_mcp_dynamic.py:129-146 | the result is the content of the last AI message without tool calls |
| DynamicAgent.LastAnswerIsLatest | ai_mcp_dynamic.py:129-146 | "" when no answer arrives, otherwise the content of an answer after which no other answer arrives |
| DynamicAgent.NonAnswerKeepsFinal | ai_mcp_dynamic.py:133-144 | tool calls and tool messages do not change the final answer |
| History.ChatHistory.constructor | src/history.py:29 | a new history is empty |
| History.ChatHistory.AddUserMessage | src/agent.py:59 | appends one user message |
| History.ChatHistory.AddAiMessage | src/agent.py:60 | appends one AI message |
| History.ChatHistory.Clear | src/history.py:42 | the history becomes empty |
| History.ConversationHistoryManager.constructor | src/history.py:13-16 | the store starts empty |
| History.ConversationHistoryManager.GetSessionHistory | src/history.py:28-31 | the first use of an id creates a fresh empty history and appends the id to the session order; later uses return the same object and change nothing; no session's messages change |
| History.ConversationHistoryManager.GetSessionMessages | src/history.py:33-37 | an unknown id has no messages and is not added |
| History.ConversationHistoryManager.ClearSession | src/history.py:39-43 | the session's messages become empty, its id stays, other sessions are untouched, and an unknown id changes nothing |
| History.ConversationHistoryManager.ListSessions | src/history.py:45-47 | every stored id exactly once, in creation order |
| History.ConversationHistoryManager.GetSessionSummary | src/history.py:49-52 | "Session id: n messages", where n is a non-empty digit string without a leading zero (as `str` of an int prints it) that parses back to the session's message count |
| History.ConversationHistoryManager.RecordTurn | src/agent.py:57-60 | the question and then the answer are appended to that session only, creating it if new |
| History.Preview | src/history.py:67 | content of 100 characters or fewer is shown whole; longer content is its first 100 characters followed by "...", so at most 103 characters |
| ChatContent.BlocksTextConcat | backend/api.py:644-655 | the text of a list of blocks is the concatenation of the texts of its parts |
| ChatContent.BlocksTextFails | backend/api.py:648-651 | flattening a list fails exactly when some dictionary block has a non-string "text" |
| ChatContent.BlocksTextIgnoresOthers | backend/api.py:645-655 | blocks that are neither strings nor dictionaries add nothing |
| ChatContent.JoinBlocks | backend/api.py:644-655 | the accumulation loop computes the text of the blocks |
| ChatContent.FlattenContent | backend/api.py:639-663 | a string as it is, a list through its blocks, a dictionary its "text" entry (no text when that entry is not a string) or, without one, its string form, anything else its string form |
| ChatContent.CallNames | backend/api.py:235-236 | one name per call, in order, failing exactly when some call has no "name" |
| ChatContent.ChatAnswer | backend/api.py:229-273 | the non-streaming loop records every call's name, duplicates included; each answer replaces the previous one, a dictionary's "text" entry taken as it is; it fails when a call has no "name", a block list cannot be joined, or the final answer is not text |
| ChatContent.AnswerValueAgrees | backend/api.py:238-260 | the raw answer equals the flattened text wherever that is defined, a text raw answer is the flattened text, and only a block list that cannot be joined raises |
| ChatContent.CollectedAnswerIsLast | backend/api.py:229-260 | the answer the loop ends with is the raw value of the last answer event's content, the one the command-line fold keeps |
| ChatContent.TextAnswerReplaces | backend/api.py:238-241 | a text answer replaces any earlier answer, even one that is not text, and the reply is that text with the tools collected so far |
| ChatContent.ReplyIsLastAnswer | backend/api.py:229-273 | whenever the non-streaming reply is produced, its response is the flattened text of the last answer's content (string, block list or dictionary), the answer the command-line fold keeps |
| ChatContent.StreamAgent | backend/api.py:601-698 | the streaming loop sends what the step-by-step stream specification sends, and ends with the same full response and tool list; an answer whose dictionary "text" entry is falsy sends nothing |
| ChatContent.DedupOntoSpec | backend/api.py:631-635 | recording tools on first sight keeps them distinct, keeps earlier ones in front, and records every name seen |
| ChatContent.StreamEventsCoherent | backend/api.py:601-670 | after any events, the characters sent spell the full response, the tools reported are the tools recorded, all distinct, in first-use order of all calls; an error is the last thing sent |
| ChatContent.StreamAnswerShape | backend/api.py:601-698 | the stream ends with Done listing the tools, after only chunks and tool reports, or with the one error that stopped it |
| ChatContent.StreamedToolsAreCalledOnce | backend/api.py:610-635 | a completed stream reports each called tool exactly once |
| ChatContent.NewTextExtends | backend/api.py:665-669 | an answer that extends what was sent adds exactly the extension; a shorter one adds nothing |

## Left out

- File and network I/O: reading and writing `mcp_servers.json` and the LLM configuration are inputs and outputs of the model; a malformed file, a non-list environment value and records that are not dictionaries (the 500 paths) are not modelled.
- The success messages of the endpoints (`"... added successfully"` and similar) are not modelled; the status codes and error details are.
- Python's `str()` of a dictionary or other value is the parameter `render`; its exact spelling (key order, quoting) is not modelled.
- Text.Lower: only ASCII letters are lowered, so names using other cased characters (e.g. the Kelvin sign) are not modelled; strings are sequences of code points without normalisation.
- ChatContent.StreamAgent: a dictionary content whose "text" entry is a non-empty list is not modelled as Python handles it. Python slices that list at the length of the text already sent. It sends nothing when the slice is empty, sends each string item of the slice as one chunk holding that whole string, and fails at the first item that is not a string. The model ends the stream with an error for every truthy "text" entry that is not a string. For a number, true or a non-empty dictionary Python fails too, so the model agrees there. A falsy entry (null, 0, false, an empty list or dictionary) sends nothing, as modelled.
- ChatContent.StreamAgent: the tool-existence test is membership in the list of tool names; matching a tool object by `str(tool)` is not modelled. The texts of the execution-error messages (which depend on tracebacks) are not modelled; only that the stream ends with an error.
- ChatContent.StreamAgent: the Ollama branch, which streams without tools, and the `asyncio.sleep` pacing are not modelled.
- DynamicAgent.RunQuery: the KeyError raised while printing a call that has no "name" is not modelled, since printing is left out.
- The agent, the language-model clients, `MCPClientManager`, the RAG system and the tool functions are outside the model; their outputs enter as the event sequence.
- LlmFactory.CreateLlmFromConfig: the temperature argument and the import-time fallback for locating packages are not modelled.
- History.ConversationHistoryManager.GetSessionMessages: Python returns the session's own list object, so a caller could mutate it; the model returns a value.
- ServerList.UpdateServer: like the source, the update performs no duplicate check.
- Console output (`show_session_info` apart from the preview, and all printing) is left out.
- Concurrency between requests is not modelled.

## Findings

| source | as written | input that shows it | evidently intended | confidence | as-written member | corrected member |
|---|---|---|---|---|---|---|
| backend/api.py:843 | the duplicate check compares each stored url, which is already normalised, with the url as submitted | any url not already in normal form, e.g. add "docs" with url "http://host/sse", then "docs2" with the same url: both are accepted and two records hold "http://host/mcp" | compare the stored url with the normalised url | medium, not executed | ServerList.AddAdmitsDuplicateEndpoint | ServerList.AddServerNormalized |
