# NPC chat backend: sessions and NPC conversations in Dafny

DemoChatFrontEnd's backend lets a player chat with three game characters: Ted, Barry and Mike.
Each character is an NPC conversation object (`NpcLangChain`) that holds:

- its name;
- the list of turn strings shown to the player;
- a task status;
- its persona text;
- a chain that sends each message to a language model.

A per-user session table (`SessionManager`) keeps one set of NPCs per user id, plus the name of
the NPC the user is currently talking to. Each HTTP handler reads or changes that table.

The project has four files:

- `wrappers.dfy`: an `Option` type.
- `prompts.dfy` (module `Prompts`): the pure text assembly.
  - The `TASK_STATUS` table and the hint it appends to what the model sees.
  - The system prompt built around a persona, with a proof that the persona can be read back out of it.
  - The persona file path `NPCConfigs/<name>_en.txt`, with a proof that distinct names get distinct files.
- `npc.dfy` (module `Npc`): the NPC.
  - `NpcState` is its value, with one function per operation: `AfterReset`, `AfterCall`, `AfterLoad`, `ConfigRead`.
  - Lemmas state what each operation promises.
  - The classes `ChatHistory` (the chain's message memory) and `Npc` are the mutable objects. Each method is proved to change the object's `State()` exactly as the matching function says.
- `sessions.dfy` (module `Sessions`): the session table.
  - `Table` is its value, and each handler is a function that returns the new table and an `Outcome`. An `Outcome` is either a status code with a JSON body, or `Crash` for an exception that escapes the handler.
  - Lemmas state the handlers' properties.
  - The class `SessionManager` holds the real `Npc` objects. Each of its handler methods is proved to act as the matching function on `View()`. `Valid()` says that no two table slots share an NPC or a memory object.

Things outside the program are inputs:

- The language model is a function `Llm` from the request (system prompt, memory, input text) to `Answer(text)` or `InvalidRequest`.
- The persona files are a map `FileSystem` from path to contents. A path that is not a key is a missing file.

The fixed instruction texts (PART0, PART1, PART3, PART4, PART5) and the four hint texts are constants with unspecified values. Every property holds whatever they say.

Two details of the code that the model follows:

- After `SessionManager.reset(u)` the user's key is kept with an empty session, so `get_session` returns that empty session instead of rebuilding the defaults (app.py:27, app.py:41). The handlers then fail on it. `Sessions.ResetSessionBreaksHandlers` states this.
- The persona is loaded during every `reset`, and so already by `__init__`. It is not loaded on first use: the lazy branch of `config_str` is modelled but is never reached after construction.

## Model

| member | source | states |
|---|---|---|
| `Prompts.SentText` | npc_langchain.py:207-210 | the text sent to the model starts with the player's input. It equals the input exactly when the status is not one of the four known states; otherwise a newline (`'\n'`) follows the input and the PART5 block holding that state's hint comes after it |
| `Prompts.SystemPrompt` | npc_langchain.py:195-196 | the system prompt is exactly as long as the fixed text before and after the persona plus the persona itself |
| `Prompts.PersonaRoundTrip` | npc_langchain.py:194-196 | the persona is embedded verbatim between `PART0+PART1+"%%%"` and `"\n%%%"+PART3+PART4`: reading it back out of the prompt gives the persona |
| `Prompts.SystemPromptInjective` | npc_langchain.py:195-196 | different personas give different system prompts |
| `Prompts.ConfigFileName` | npc_langchain.py:244 | the persona file path ends in `_en.txt` |
| `Prompts.ConfigFileNameInjective` | npc_langchain.py:244 | `os.path.join("NPCConfigs", name + "_en.txt")` gives different NPC names different files |
| `Npc.ResetOutcome` | npc_langchain.py:229-253 | after reset: the history is empty; the status is the given one or "start"; the name is the given one or the old one; the persona is the given non-empty text, else the contents of the name's file ("" if missing); the system prompt carries exactly that persona; the chain exists with empty memory |
| `Npc.ResetForgetsPast` | npc_langchain.py:237-245 | reset keeps nothing of the earlier conversation: two NPCs with the same name reset to the same state |
| `Npc.InitialOutcome` | npc_langchain.py:145-155 | a new NPC has its own name, no history, status "start", a built chain, and the persona of its file |
| `Npc.ExitChangesNothing` | npc_langchain.py:202-203 | calling with "exit" returns "Bye!" and changes nothing |
| `Npc.CallAppendsTurn` | npc_langchain.py:200-218 | on a ready NPC a call appends "Player: input". When the model answers, it then appends "name: answer" and returns the answer. When the model rejects the request, it appends nothing more and returns "出错了！". Earlier entries, status, name, persona and prompt are kept |
| `Npc.HintOnlySentToModel` | npc_langchain.py:206-211 | the stored player entry is the message as typed. The text sent and kept in the chain's memory differs from it exactly when the status is a known one |
| `Npc.ConfigReadAfterReset` | npc_langchain.py:157-166 | after a reset with a non-empty persona, the config_str property reads back exactly that text and changes nothing |
| `Npc.AfterLoad` | npc_langchain.py:185-197 | load_system_prompt changes only the persona: the given text when there is one, otherwise the file's contents, or "" when the file is missing |
| `Npc.AfterReset` | npc_langchain.py:229-253 | after reset the history and the chain's memory are empty, the chain is ready, and the system prompt is built around the persona now held |
| `Npc.AfterCall` | npc_langchain.py:200-218 | a call keeps the name, status, persona, prompt and readiness; the old history is a prefix of the new one, which is at most two entries longer |
| `Npc.ConfigRead` | npc_langchain.py:157-166 | the config_str property returns the persona it leaves stored and changes nothing else; a persona already held is returned as it is |
| `Npc.HistoryAppendOnly` | npc_langchain.py:157-227 | between resets (messages, status changes and reads of config_str) the history only grows: old entries stay as they were, each step adds at most two entries, name and prompt never change, and a persona once held never changes (a read of config_str only fills in a missing one) |
| `Npc.ChatHistory.constructor` | npc_langchain.py:252-253 | a new chat memory has the Player role, the NPC's role and no messages |
| `Npc.ChatHistory.AddUserMessage` | npc_langchain.py:130-132 | appends one message under the user's role and keeps the earlier ones |
| `Npc.ChatHistory.AddAiMessage` | npc_langchain.py:134-136 | appends one message under the AI's role and keeps the earlier ones |
| `Npc.Npc.constructor` | npc_langchain.py:145-155 | the new object's state is the initial state of its name, with a fresh memory object |
| `Npc.Npc.LoadSystemPrompt` | npc_langchain.py:176-197 | needs a file name or a text. It stores the given text, or else the file's contents, or "" when the file is missing. It returns the system prompt built around the stored text and changes nothing else |
| `Npc.Npc.Reset` | npc_langchain.py:229-308 | the object's new state is `AfterReset` of its old one, with a fresh memory object, and the method returns "Conversation reset!" |
| `Npc.Npc.Call` | npc_langchain.py:200-218 | the new state and the reply are `AfterCall` of the old state. The memory object stays the same, and on an answer it records the text sent and the reply |
| `Npc.Npc.SetTaskStatus` | npc_langchain.py:220-227 | only one of the four known states is accepted, and only the status changes |
| `Npc.Npc.ConvHistory` | npc_langchain.py:168-174 | the conv_history property answers the history of the NPC's state |
| `Npc.Npc.ConfigStr` | npc_langchain.py:157-166 | loads the NPC's file when no persona is held, returns the persona, and keeps the memory object |
| `Sessions.GetSessionStep` | app.py:24-36 | get_session leaves the user in the table and every other user's session as it was; a known user's session is kept, an unseen user gets the default session |
| `Sessions.ResetSessionStep` | app.py:38-41 | SessionManager.reset maps the user to the empty session and keeps every other session |
| `Sessions.GetConversationIn` | app.py:69-75 | the conversation GET changes nothing; it answers (404) only when the current name names no NPC, and otherwise raises: on a reset session, or when jsonify is handed the chain object |
| `Sessions.PostMessageIn` | app.py:69-88 | the conversation POST changes no other user's session, and the table changes only when it answers 201 |
| `Sessions.ChangeNpcIn` | app.py:99-113 | change_npc changes no other user's session, and a 400 answer changes nothing |
| `Sessions.ResetNpcIn` | app.py:130-135 | the reset route changes no other user's session, and a crash changes nothing |
| `Sessions.GetConfigStrIn` | app.py:152-156 | getConfigStr changes no other user's session, and a crash changes nothing |
| `Sessions.SetConfigStrIn` | app.py:173-183 | setConfigStr changes no other user's session, and the table changes only when it answers 200 "config_str set" |
| `Sessions.GetTaskStatusIn` | app.py:200-204 | getTaskStatus changes nothing and answers exactly when the current name names an NPC |
| `Sessions.SetTaskStatusIn` | app.py:221-232 | setTaskStatus changes no other user's session, and the table changes only when it answers 200 "task_status set" |
| `Sessions.GetConversationStep` | app.py:59-75 | the conversation GET route, get_session included, keeps the user in the table and every other session as it was |
| `Sessions.PostMessageStep` | app.py:59-88 | the conversation POST route keeps the user in the table and every other session as it was |
| `Sessions.ChangeNpcStep` | app.py:91-113 | the changeNPC route keeps the user in the table and every other session as it was |
| `Sessions.ResetNpcStep` | app.py:117-135 | the reset route keeps the user in the table and every other session as it was |
| `Sessions.GetConfigStrStep` | app.py:140-156 | the getConfigStr route keeps the user in the table and every other session as it was |
| `Sessions.SetConfigStrStep` | app.py:161-183 | the setConfigStr route keeps the user in the table and every other session as it was |
| `Sessions.GetTaskStatusStep` | app.py:188-204 | the getTaskStatus route keeps the user in the table and every other session as it was |
| `Sessions.SetTaskStatusStep` | app.py:208-232 | the setTaskStatus route keeps the user in the table and every other session as it was |
| `Sessions.GetSessionCreatesDefaults` | app.py:27-36 | for an unseen user, get_session adds exactly that user, with NPCs Ted, Barry and Mike. Each NPC has its own name, no history and status "start", and Ted is current. Other sessions are untouched |
| `Sessions.GetSessionIdempotent` | app.py:24-36 | get_session on a known user changes nothing; a second call is the same as the first |
| `Sessions.ResetSessionBreaksHandlers` | app.py:24-41 | after a session reset the key stays, so get_session returns the empty session. Every handler that looks up the current NPC then crashes without changing the table. change_npc crashes only after storing the new name |
| `Sessions.BadMessageRejected` | app.py:77-88 | a conversation POST with no JSON body, or with a missing or empty message, is answered 400 and changes nothing beyond get_session |
| `Sessions.MissingNpcNotFound` | app.py:68-88 | when the current name names no NPC, a GET and a POST with a message are both answered 404 "NPC <name> not found" and change nothing beyond get_session |
| `Sessions.ChangeNpcStoresAnyName` | app.py:104-112 | change_npc stores any non-empty name as current without checking it. It crashes exactly when no NPC has that name, and otherwise answers 200 with that NPC's persona |
| `Sessions.ChangeNpcKeepsConversations` | app.py:98-113 | change_npc changes no NPC's history or status and no other user's session |
| `Sessions.SwitchBackPreservesHistory` | app.py:98-113 | switching to another NPC and back keeps every NPC's history and status, and makes the first NPC current again |
| `Sessions.UnknownStatusSuppressesHint` | app.py:220-233 | the setTaskStatus route stores any non-empty value and answers 200. The stored value keeps the hint out of the text sent to the model exactly when it is not a known state |
| `Sessions.SetTaskStatusThenGet` | app.py:188-232 | a non-empty value stored by setTaskStatus is what getTaskStatus then answers with 200, known state or not |
| `Sessions.SetConfigThenGet` | app.py:140-185 | setConfigStr with a non-empty persona answers 200 and resets the current NPC: no history, status "start". getConfigStr then answers with exactly that text |
| `Sessions.ResetNpcTouchesOnlyCurrent` | app.py:129-135 | the reset route answers 200 and clears the current NPC's history, sets its status to "start" and names it after its key. The session's other NPCs, its current name and every other session stay |
| `Sessions.SessionManager.constructor` | app.py:21-22 | the table starts empty |
| `Sessions.SessionManager.GetSession` | app.py:24-36 | the table's new value is `GetSessionStep` of the old one. The returned session is the stored one, and nothing changes for a known user |
| `Sessions.SessionManager.Reset` | app.py:38-41 | the table's new value maps the user to the empty session |
| `Sessions.SessionManager.SetCurrent` | app.py:106 | only the user's current NPC name changes |
| `Sessions.SessionManager.CallAt` | app.py:84 | the NPC in one slot answers the message as `AfterCall` says, and only that slot changes |
| `Sessions.SessionManager.ConfigAt` | app.py:110 | reads the persona of the NPC in one slot as `ConfigRead` says, and only that slot changes |
| `Sessions.SessionManager.ResetAt` | app.py:134 | resets the NPC in one slot under the slot's name as `AfterReset` says, and only that slot changes |
| `Sessions.SessionManager.SetStatusAt` | app.py:229 | sets the status of the NPC in one slot, and only that slot changes |
| `Sessions.SessionManager.GetConversationInSession` | app.py:69-75 | answers the conversation GET in a fetched session as `GetConversationIn` says, without changing anything |
| `Sessions.SessionManager.PostMessageInSession` | app.py:69-88 | handles the conversation POST in a fetched session as `PostMessageIn` says |
| `Sessions.SessionManager.ChangeNpcInSession` | app.py:99-113 | handles change_npc in a fetched session as `ChangeNpcIn` says |
| `Sessions.SessionManager.ResetNpcInSession` | app.py:130-135 | handles the reset route in a fetched session as `ResetNpcIn` says |
| `Sessions.SessionManager.GetConfigStrInSession` | app.py:152-156 | handles getConfigStr in a fetched session as `GetConfigStrIn` says |
| `Sessions.SessionManager.SetConfigStrInSession` | app.py:173-183 | handles setConfigStr in a fetched session as `SetConfigStrIn` says |
| `Sessions.SessionManager.GetTaskStatusInSession` | app.py:200-204 | answers getTaskStatus in a fetched session without changing anything |
| `Sessions.SessionManager.SetTaskStatusInSession` | app.py:221-232 | handles setTaskStatus in a fetched session as `SetTaskStatusIn` says |
| `Sessions.SessionManager.GetConversation` | app.py:59-75 | GET /conversations acts on the table as `GetConversationStep` says, and the table stays valid |
| `Sessions.SessionManager.PostMessage` | app.py:59-88 | POST /conversations acts as `PostMessageStep` says |
| `Sessions.SessionManager.ChangeNpc` | app.py:91-113 | POST /changeNPC acts as `ChangeNpcStep` says |
| `Sessions.SessionManager.ResetNpc` | app.py:117-135 | POST /reset acts as `ResetNpcStep` says |
| `Sessions.SessionManager.GetConfigStr` | app.py:140-156 | GET /getConfigStr acts as `GetConfigStrStep` says |
| `Sessions.SessionManager.SetConfigStr` | app.py:161-183 | POST /setConfigStr acts as `SetConfigStrStep` says |
| `Sessions.SessionManager.GetTaskStatus` | app.py:188-204 | GET /getTaskStatus acts as `GetTaskStatusStep` says |
| `Sessions.SessionManager.SetTaskStatus` | app.py:208-232 | POST /setTaskStatus acts as `SetTaskStatusStep` says |

## Left out

- Flask, CORS, `jsonify`, routing, the OPTIONS and other non-GET/POST branches (`{'ok': 'ok'}`), and `handle_user_id` with its `uuid.uuid4()`: HTTP plumbing and randomness.
- The HTTP status of a crash: an exception escaping a handler is the outcome `Crash`. The web server's error page is not modelled.
- The `print` calls: console logging only.
- The language-model machinery: `AzureOpenAI`, `ConversationChain.predict`, `ConversationBufferMemory`, the prompt template, `STOP`, temperature and the environment settings. The model is the oracle `Llm`. Its input is the system prompt, the chain's memory and the text sent. The chain records the text sent and the reply in its memory.
- Exceptions from `predict` other than `InvalidRequestError`, such as network failures: these propagate out of the handler and are not modelled.
- File reading errors other than a missing file (permissions, decoding): a file is either a key of `FileSystem` or missing.
- The wording of PART0–PART5 and of the hints: these are constants of unspecified value.
- `os.path.join` is modelled for POSIX paths only.
- JSON bodies that are not objects, or whose fields are not strings. A request body is either absent or unparsable (`NoJson`), or an object of string fields. A non-string `task_status`, which the setTaskStatus route would store, is not modelled.
- `Sessions.GetConversationIn` models the conversation GET with an NPC present as a crash: the handler passes the chain object (not the history) to `jsonify`, and Flask's JSON encoder rejects objects of that kind. The encoder itself is not modelled.
- `Npc.AfterReset` assumes that building the prompt template and the conversation chain succeeds. A persona holding a template placeholder such as `{name}` or an unbalanced brace makes that step raise after the history, status, name, persona, system prompt and memory have already been replaced, while the old chain stays in place. That failure and its partial state are not modelled.
- `Npc.Npc.Reset` makes the same assumption: it always ends with a ready chain built around the new system prompt.
- `Sessions.SetConfigThenGet` makes the same assumption for the text the setConfigStr route passes to reset: it always answers 200, also for a persona the template would reject.
- The `task_status is not None` test in `__call__`: the status is always a string in the model, so the test always passes.
- `Npc.Npc.SetTaskStatus` and `Npc.Npc.LoadSystemPrompt` model the source's `assert` statements as preconditions. The AssertionError raised when they fail is not modelled.
- `test()`: a console loop outside the server.
- Concurrent requests: the model is sequential.
