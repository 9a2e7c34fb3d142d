/**
 * One NPC conversation (NpcLangChain in npc_langchain.py): its name, the turn strings shown to
 * the player, its task status, its persona text, and the chain that talks to the model.
 *
 * The model (AzureOpenAI behind a langchain ConversationChain) is an oracle `Llm`: a function
 * from what the chain sends to a reply, which may be the "invalid request" error. Reading a
 * persona file is a lookup in a `FileSystem` map; a name that is not in it is a missing file.
 *
 * The first half states what each operation does to an NpcState value; the class `Npc` at the
 * end is the mutable object, and each of its methods is proved to act as the matching function.
 */
module Npc {
  import opened Wrappers
  import opened Prompts

  /** File contents by path; a path that is not a key does not exist. */
  type FileSystem = map<string, string>

  /** One entry of the chain's memory, tagged with the role that produced it. */
  datatype ChatMessage = ChatMessage(role: string, content: string)

  /** The value of a chat history object: the two role names and the messages so far. */
  datatype ChatLog = ChatLog(userRole: string, aiRole: string, messages: seq<ChatMessage>)

  /** What the chain hands the model for one turn: system prompt, memory and the input text. */
  datatype Request = Request(system: Option<string>, memory: seq<ChatMessage>, input: string)

  /** A model reply, or the InvalidRequestError the client may raise instead. */
  datatype Reply = Answer(text: string) | InvalidRequest

  type Llm = Request -> Reply

  /** The role the player's messages carry in the chain's memory. */
  const PlayerRole: string := "Player"

  /** The fixed strings NpcLangChain returns. */
  const Farewell: string := "Bye!"
  const NotInitialized: string := "Conversation not initialized"
  const RequestFailed: string := "出错了！"
  const ResetDone: string := "Conversation reset!"

  /** The history entry recording a player message, and the one recording an NPC reply. */
  function PlayerEntry(input: string): string {
    "Player: " + input
  }

  function NpcEntry(name: string, reply: string): string {
    name + ": " + reply
  }

  /**
   * The observable state of one NPC. `config` is the persona text (None until first loaded),
   * `prompt` the system prompt the chain was built with, `ready` whether the chain exists,
   * and `memory` the chain's message memory.
   */
  datatype NpcState = NpcState(
    name: string,
    history: seq<string>,
    status: string,
    config: Option<string>,
    prompt: Option<string>,
    ready: bool,
    memory: ChatLog)

  /** The state the fields hold before `__init__` calls `reset`. */
  function Unset(name: string): NpcState {
    NpcState(name, [], InitialStatus, None, None, false, ChatLog(PlayerRole, name, []))
  }

  /**
   * The persona text load_system_prompt settles on: the given text when there is one (even an
   * empty one), otherwise the file's contents, or "" when the file does not exist. The source
   * asserts that a file name or a text is given.
   */
  function LoadedPersona(fileName: string, configArg: Option<string>, fs: FileSystem): string
    requires fileName != "" || configArg.Some?
  {
    match configArg
    case Some(text) => text
    case None => if fileName in fs then fs[fileName] else ""
  }

  /** load_system_prompt stores the persona text and changes nothing else. */
  function AfterLoad(st: NpcState, fileName: string, configArg: Option<string>, fs: FileSystem): (r: NpcState)
    requires fileName != "" || configArg.Some?
    ensures r == st.(config := r.config)
    ensures configArg.Some? ==> r.config == configArg
    ensures configArg.None? ==> r.config == Some(if fileName in fs then fs[fileName] else "")
  {
    st.(config := Some(LoadedPersona(fileName, configArg, fs)))
  }

  /**
   * reset: clear the history, take the given status or "start", take the given name, then load
   * the persona from the given text when it is non-empty and from the NPC's file otherwise, and
   * rebuild the chain with the new system prompt and an empty memory.
   */
  function AfterReset(st: NpcState, name: Option<string>, configArg: Option<string>,
                      status: Option<string>, fs: FileSystem): (r: NpcState)
    ensures r.history == [] && r.ready && r.memory.messages == []
    ensures r.config.Some? && r.prompt == Some(SystemPrompt(r.config.value))
  {
    var st1 := st.(history := [], status := status.GetOr(InitialStatus), name := name.GetOr(st.name));
    var st2 := if configArg.Some? && configArg.value != "" then AfterLoad(st1, "", configArg, fs)
               else AfterLoad(st1, ConfigFileName(st1.name), None, fs);
    st2.(prompt := Some(SystemPrompt(st2.config.value)), ready := true,
         memory := ChatLog(PlayerRole, st2.name, []))
  }

  /** A freshly constructed NPC: `__init__` resets with its name and status "start". */
  function Initial(name: string, fs: FileSystem): NpcState {
    AfterReset(Unset(name), Some(name), None, Some(InitialStatus), fs)
  }

  /** What the chain adds to its memory after a successful turn. */
  function Recorded(log: ChatLog, sent: string, reply: string): ChatLog {
    log.(messages := log.messages + [ChatMessage(log.userRole, sent), ChatMessage(log.aiRole, reply)])
  }

  /**
   * `__call__`: "exit" is answered with "Bye!"; without a chain the call reports it; otherwise
   * the player entry is recorded, the model is asked (with the status hint added to the text it
   * sees), and on an answer the NPC entry is recorded and the answer returned. An invalid
   * request returns the fixed error text and keeps the player entry.
   */
  function AfterCall(st: NpcState, input: string, llm: Llm): (r: (NpcState, string))
    ensures r.0.name == st.name && r.0.status == st.status && r.0.config == st.config
    ensures r.0.prompt == st.prompt && r.0.ready == st.ready
    ensures st.history <= r.0.history && |r.0.history| <= |st.history| + 2
  {
    if input == "exit" then (st, Farewell)
    else if !st.ready then (st, NotInitialized)
    else
      var asked := st.(history := st.history + [PlayerEntry(input)]);
      var sent := SentText(input, st.status);
      match llm(Request(st.prompt, st.memory.messages, sent))
      case InvalidRequest => (asked, RequestFailed)
      case Answer(reply) =>
        (asked.(history := asked.history + [NpcEntry(st.name, reply)],
                memory := Recorded(st.memory, sent, reply)), reply)
  }

  /** The config_str property: loads the NPC's file when no persona is held yet, then reads it. */
  function ConfigRead(st: NpcState, fs: FileSystem): (r: (NpcState, string))
    ensures r.0 == st.(config := Some(r.1))
    ensures st.config.Some? ==> r.1 == st.config.value
  {
    var st1 := if st.config.None? then AfterLoad(st, ConfigFileName(st.name), None, fs) else st;
    (st1, st1.config.value)
  }

  // ---------------------------------------------------------------------------------------
  // Properties of the operations
  // ---------------------------------------------------------------------------------------

  /**
   * After reset the history is empty, the status is the given one or "start", the name is the
   * given one or the old one, the persona is the given non-empty text or else the contents of
   * the (new) name's file ("" when missing), the chain is built around exactly that persona,
   * and its memory is empty.
   */
  lemma {:induction false} ResetOutcome(st: NpcState, name: Option<string>, configArg: Option<string>,
                                        status: Option<string>, fs: FileSystem)
    ensures var r := AfterReset(st, name, configArg, status, fs);
      && r.history == []
      && r.status == (if status.Some? then status.value else "start")
      && r.name == (if name.Some? then name.value else st.name)
      && (configArg.Some? && configArg.value != "" ==> r.config == configArg)
      && (!(configArg.Some? && configArg.value != "") ==>
            r.config == Some(if ConfigFileName(r.name) in fs then fs[ConfigFileName(r.name)] else ""))
      && r.prompt.Some? && PersonaOf(r.prompt.value) == r.config
      && r.ready && r.memory.messages == []
  {
    var r := AfterReset(st, name, configArg, status, fs);
    PersonaRoundTrip(r.config.value);
  }

  /** Reset forgets the conversation: two states with the same name reset to the same state. */
  lemma ResetForgetsPast(a: NpcState, b: NpcState, name: Option<string>, configArg: Option<string>,
                         status: Option<string>, fs: FileSystem)
    requires name.Some? || a.name == b.name
    ensures AfterReset(a, name, configArg, status, fs) == AfterReset(b, name, configArg, status, fs)
  {
  }

  /** A new NPC has no history, status "start", its own name, and the persona of its file. */
  lemma {:induction false} InitialOutcome(name: string, fs: FileSystem)
    ensures var r := Initial(name, fs);
      && r.name == name && r.history == [] && r.status == "start" && r.ready
      && r.config == Some(if ConfigFileName(name) in fs then fs[ConfigFileName(name)] else "")
  {
    ResetOutcome(Unset(name), Some(name), None, Some(InitialStatus), fs);
  }

  /** "exit" is answered with "Bye!" and changes nothing. */
  lemma ExitChangesNothing(st: NpcState, llm: Llm)
    ensures AfterCall(st, "exit", llm) == (st, "Bye!")
  {
  }

  /**
   * A call on a ready NPC appends "Player: input" and, when the model answers, then
   * "name: answer" and returns the answer; when the model rejects the request, nothing follows
   * the player entry and the error text is returned. Earlier entries are kept, and the status,
   * name and persona do not change.
   */
  lemma CallAppendsTurn(st: NpcState, input: string, llm: Llm)
    requires input != "exit" && st.ready
    ensures var (r, out) := AfterCall(st, input, llm);
      && r.name == st.name && r.status == st.status && r.config == st.config && r.prompt == st.prompt
      && match llm(Request(st.prompt, st.memory.messages, SentText(input, st.status)))
         case Answer(text) =>
           r.history == st.history + ["Player: " + input, st.name + ": " + text] && out == text
         case InvalidRequest =>
           r.history == st.history + ["Player: " + input] && out == "出错了！"
  {
  }

  /**
   * The status hint reaches only the model: the stored player entry is the message as typed,
   * while the text sent (and kept in the chain's memory) carries the hint exactly when the
   * status is one of the four known ones.
   */
  lemma HintOnlySentToModel(st: NpcState, input: string, llm: Llm, text: string)
    requires input != "exit" && st.ready
    requires llm(Request(st.prompt, st.memory.messages, SentText(input, st.status))) == Answer(text)
    ensures var r := AfterCall(st, input, llm).0;
      && r.history[|st.history|] == PlayerEntry(input)
      && r.memory.messages[|st.memory.messages|] == ChatMessage(st.memory.userRole, SentText(input, st.status))
      && (r.memory.messages[|st.memory.messages|].content == input <==> st.status !in TaskStatus)
  {
  }

  /** A non-empty persona given to reset is what the config_str property reads back, untouched. */
  lemma ConfigReadAfterReset(st: NpcState, name: Option<string>, text: string,
                             status: Option<string>, fs: FileSystem)
    requires text != ""
    ensures var r := AfterReset(st, name, Some(text), status, fs);
      ConfigRead(r, fs) == (r, text)
  {
  }

  /**
   * One step of a conversation between resets: a player message, a status change, or a read of
   * the config_str property.
   */
  datatype Step = Say(input: string, llm: Llm) | SetStatus(status: string) | ReadConfig(fs: FileSystem)

  /** The state after a sequence of steps. */
  function Run(st: NpcState, steps: seq<Step>): NpcState
    decreases |steps|
  {
    if steps == [] then st
    else
      var next := match steps[0]
        case Say(input, llm) => AfterCall(st, input, llm).0
        case SetStatus(s) => st.(status := s)
        case ReadConfig(fs) => ConfigRead(st, fs).0;
      Run(next, steps[1..])
  }

  /**
   * Between resets the history only grows: what was there stays as it was, each step adds at
   * most two entries, the NPC's name and system prompt stay the same, and a persona once held
   * stays the same (a read of config_str only fills in a missing one).
   */
  lemma {:induction false} HistoryAppendOnly(st: NpcState, steps: seq<Step>)
    ensures var r := Run(st, steps);
      && st.history <= r.history
      && |r.history| <= |st.history| + 2 * |steps|
      && r.name == st.name && r.prompt == st.prompt
      && (r.config == st.config || (st.config.None? && r.config.Some?))
    decreases |steps|
  {
    if steps != [] {
      var next := match steps[0]
        case Say(input, llm) => AfterCall(st, input, llm).0
        case SetStatus(s) => st.(status := s)
        case ReadConfig(fs) => ConfigRead(st, fs).0;
      HistoryAppendOnly(next, steps[1..]);
    }
  }

  // ---------------------------------------------------------------------------------------
  // The mutable objects
  // ---------------------------------------------------------------------------------------

  /** MWChatMessageHistory: a message list whose entries are tagged with the two role names. */
  class ChatHistory {
    const userRole: string
    const aiRole: string
    var messages: seq<ChatMessage>

    ghost function Log(): ChatLog
      reads this
    {
      ChatLog(userRole, aiRole, messages)
    }

    constructor (userRole: string, aiRole: string)
      ensures Log() == ChatLog(userRole, aiRole, [])
    {
      this.userRole := userRole;
      this.aiRole := aiRole;
      messages := [];
    }

    /** add_user_message: append the message under the user's role. */
    method AddUserMessage(message: string)
      modifies this
      ensures messages == old(messages) + [ChatMessage(userRole, message)]
    {
      messages := messages + [ChatMessage(userRole, message)];
    }

    /** add_ai_message: append the message under the AI's role. */
    method AddAiMessage(message: string)
      modifies this
      ensures messages == old(messages) + [ChatMessage(aiRole, message)]
    {
      messages := messages + [ChatMessage(aiRole, message)];
    }
  }

  /** NpcLangChain. */
  class Npc {
    var npcName: string
    var convHistory: seq<string>
    var taskStatus: string
    var configStr: Option<string>
    var systemPrompt: Option<string>
    /** Whether the conversation chain has been built (`self.conversation is not None`). */
    var chainReady: bool
    /** The chain's memory. */
    var memory: ChatHistory

    ghost function State(): NpcState
      reads this, memory
    {
      NpcState(npcName, convHistory, taskStatus, configStr, systemPrompt, chainReady, memory.Log())
    }

    /** The conv_history property: the history of the NPC's state, as the list itself. */
    function ConvHistory(): (h: seq<string>)
      reads this, memory
      ensures h == State().history
    {
      convHistory
    }

    constructor (name: string, fs: FileSystem)
      ensures State() == Initial(name, fs)
      ensures fresh(memory)
    {
      npcName := name;
      convHistory := [];
      configStr := None;
      taskStatus := InitialStatus;
      systemPrompt := None;
      chainReady := false;
      memory := new ChatHistory(PlayerRole, name);
      new;
      var _ := Reset(Some(npcName), None, Some(taskStatus), fs);
    }

    /** load_system_prompt: store the persona and return the system prompt built around it. */
    method LoadSystemPrompt(fileName: string, configArg: Option<string>, fs: FileSystem)
      returns (prompt: string)
      requires fileName != "" || configArg.Some?
      modifies this
      ensures memory == old(memory)
      ensures State() == AfterLoad(old(State()), fileName, configArg, fs)
      ensures prompt == SystemPrompt(configStr.value)
    {
      var persona: string;
      if configArg.None? {
        if fileName in fs {
          persona := fs[fileName];
        } else {
          persona := "";
        }
      } else {
        persona := configArg.value;
      }
      configStr := Some(persona);
      prompt := Preamble + persona + Closing;
    }

    /** reset: start over, as AfterReset says; the chain gets a fresh memory object. */
    method Reset(name: Option<string>, configArg: Option<string>, status: Option<string>, fs: FileSystem)
      returns (msg: string)
      modifies this
      ensures State() == AfterReset(old(State()), name, configArg, status, fs)
      ensures fresh(memory)
      ensures msg == ResetDone
    {
      convHistory := [];
      taskStatus := if status.Some? then status.value else InitialStatus;
      if name.Some? {
        npcName := name.value;
      }
      var prompt;
      if configArg.Some? && configArg.value != "" {
        prompt := LoadSystemPrompt("", configArg, fs);
      } else {
        prompt := LoadSystemPrompt(ConfigFileName(npcName), None, fs);
      }
      systemPrompt := Some(prompt);
      memory := new ChatHistory(PlayerRole, npcName);
      chainReady := true;
      msg := ResetDone;
    }

    /** `__call__`: one player message, answered as AfterCall says. */
    method Call(input: string, llm: Llm) returns (reply: string)
      modifies this, memory
      ensures memory == old(memory)
      ensures (State(), reply) == AfterCall(old(State()), input, llm)
    {
      if input == "exit" {
        return Farewell;
      }
      if !chainReady {
        return NotInitialized;
      }
      convHistory := convHistory + [PlayerEntry(input)];
      var sent := input;
      if taskStatus in TaskStatus {
        sent := sent + "\n" + StatusBlock(TaskStatus[taskStatus]);
      }
      assert sent == SentText(input, taskStatus);
      match llm(Request(systemPrompt, memory.messages, sent)) {
        case InvalidRequest =>
          reply := RequestFailed;
        case Answer(text) =>
          memory.AddUserMessage(sent);
          memory.AddAiMessage(text);
          convHistory := convHistory + [NpcEntry(npcName, text)];
          reply := text;
          assert memory.Log() == Recorded(old(memory.Log()), sent, text);
      }
    }

    /** set_task_status: only the four known states are accepted. */
    method SetTaskStatus(status: string)
      requires status in TaskStatus
      modifies this
      ensures State() == old(State()).(status := status)
    {
      taskStatus := status;
    }

    /** The config_str property, which loads the NPC's file on first use. */
    method ConfigStr(fs: FileSystem) returns (persona: string)
      modifies this
      ensures memory == old(memory)
      ensures (State(), persona) == ConfigRead(old(State()), fs)
    {
      if configStr.None? {
        var _ := LoadSystemPrompt(ConfigFileName(npcName), None, fs);
      }
      persona := configStr.value;
    }
  }
}
