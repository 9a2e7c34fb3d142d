/**
 * The per-user session table and the request handlers of app.py, with Flask taken away: each
 * handler is a transition on the table that picks a response (a status code and a JSON body) or
 * fails with an uncaught exception (`Crash`, which the web server turns into an error page).
 *
 * A session is the dictionary `{npcs: {Ted, Barry, Mike}, curr_npc}`. `SessionManager.reset`
 * overwrites it with `{}`, so each key is optional here. The first half states each handler as a
 * function on a table of NpcState values; the class `SessionManager` holds the real objects and
 * each of its methods is proved to act as the matching function.
 */
module Sessions {
  import opened Wrappers
  import opened Prompts
  import opened Npc

  /** The NPCs every new session starts with, and the one it starts talking to. */
  const DefaultNpcNames: set<string> := {"Ted", "Barry", "Mike"}
  const DefaultNpc: string := "Ted"

  /** A session's value: its NPCs and current NPC name, each absent after a session reset. */
  datatype SessionState = SessionState(npcs: Option<map<string, NpcState>>, curr: Option<string>)

  /** The session table's value: user id to session. */
  type Table = map<string, SessionState>

  /** The JSON body of a request: absent or unparsable, or an object with string fields. */
  datatype Json = NoJson | Object(fields: map<string, string>)

  /** The JSON body of a response. */
  datatype Body =
    | ErrorBody(error: string)
    | MessageBody(message: string)
    | NpcBody(npcName: string, configStr: string, conversation: seq<string>)
    | ConfigBody(configStr: string)
    | StatusBody(taskStatus: string)

  /** What a handler produces: a response, or an exception that escapes it. */
  datatype Outcome = Respond(code: int, body: Body) | Crash

  const InvalidJson: string := "invalid JSON in request body"

  function NotFound(name: string): string {
    "NPC " + name + " not found"
  }

  /** `request.json.get(key)`. */
  function Field(fields: map<string, string>, key: string): Option<string> {
    if key in fields then Some(fields[key]) else None
  }

  /** Python truthiness of an optional string: present and non-empty. */
  predicate Truthy(v: Option<string>) {
    v.Some? && v.value != ""
  }

  /** The session get_session creates for an unseen user. */
  function DefaultSession(fs: FileSystem): SessionState {
    SessionState(
      Some(map["Ted" := Initial("Ted", fs), "Barry" := Initial("Barry", fs), "Mike" := Initial("Mike", fs)]),
      Some(DefaultNpc))
  }

  /** The value SessionManager.reset stores: an empty dictionary. */
  const EmptySession: SessionState := SessionState(None, None)

  /** Whether `r` has the users of `t` plus `u`, with every session but `u`'s as it was in `t`. */
  predicate OthersKept(t: Table, r: Table, u: string) {
    r.Keys == t.Keys + {u} && forall v | v in t && v != u :: r[v] == t[v]
  }

  /** get_session: add the default session for an unseen user; a known user's is left alone. */
  function GetSessionStep(t: Table, u: string, fs: FileSystem): (r: Table)
    ensures u in r && OthersKept(t, r, u)
    ensures u in t ==> r[u] == t[u]
    ensures u !in t ==> r[u] == DefaultSession(fs)
  {
    if u in t then t else t[u := DefaultSession(fs)]
  }

  /** SessionManager.reset. */
  function ResetSessionStep(t: Table, u: string): (r: Table)
    ensures OthersKept(t, r, u) && r[u] == EmptySession
  {
    t[u := EmptySession]
  }

  /** Replace NPC `n` of user `u`'s session with `st`. */
  function UpdateNpc(t: Table, u: string, n: string, st: NpcState): Table
    requires u in t && t[u].npcs.Some?
  {
    t[u := t[u].(npcs := Some(t[u].npcs.value[n := st]))]
  }

  /**
   * Whether user `u`'s session (in a table get_session has just filled) lets a handler look up
   * its current NPC: `sess['curr_npc']` and `sess['npcs']` both raise on an emptied session.
   */
  predicate CanLookUp(t: Table, u: string) {
    u in t && t[u].curr.Some? && t[u].npcs.Some?
  }

  /** Whether the current NPC name of `u`'s session names one of its NPCs. */
  predicate HasCurrent(t: Table, u: string) {
    CanLookUp(t, u) && t[u].curr.value in t[u].npcs.value
  }

  function Current(t: Table, u: string): NpcState
    requires HasCurrent(t, u)
  {
    t[u].npcs.value[t[u].curr.value]
  }

  /**
   * GET /conversations, once get_session has run: a missing current NPC is answered with 404;
   * a present one is passed to jsonify as its chain object, which Flask's JSON encoder cannot
   * serialise, so the handler raises.
   */
  function GetConversationIn(t: Table, u: string): (r: (Table, Outcome))
    requires u in t
    ensures r.0 == t
    ensures r.1.Respond? <==> CanLookUp(t, u) && !HasCurrent(t, u)
  {
    if !CanLookUp(t, u) then (t, Crash)
    else if HasCurrent(t, u) then (t, Crash)
    else (t, Respond(404, ErrorBody(NotFound(t[u].curr.value))))
  }

  /** POST /conversations, once get_session has run: the current NPC answers a non-empty message. */
  function PostMessageIn(t: Table, u: string, body: Json, llm: Llm): (r: (Table, Outcome))
    requires u in t
    ensures OthersKept(t, r.0, u)
    ensures (r.1.Respond? && r.1.code == 201) || r.0 == t
  {
    if !CanLookUp(t, u) then (t, Crash)
    else
      match body
      case NoJson => (t, Respond(400, ErrorBody(InvalidJson)))
      case Object(fields) =>
        var message := Field(fields, "message");
        if !Truthy(message) then (t, Respond(400, ErrorBody("Message is required")))
        else if !HasCurrent(t, u) then (t, Respond(404, ErrorBody(NotFound(t[u].curr.value))))
        else
          var (st, reply) := AfterCall(Current(t, u), message.value, llm);
          (UpdateNpc(t, u, t[u].curr.value, st), Respond(201, MessageBody(reply)))
  }

  /**
   * POST /changeNPC, once get_session has run: make the given non-empty name current, without
   * checking that such an NPC exists, then answer with that NPC's name, persona and history. The
   * name is stored before the lookup, so an unknown name is kept even though the handler fails.
   */
  function ChangeNpcIn(t: Table, u: string, body: Json, fs: FileSystem): (r: (Table, Outcome))
    requires u in t
    ensures OthersKept(t, r.0, u)
    ensures r.1.Respond? && r.1.code == 400 ==> r.0 == t
  {
    match body
    case NoJson => (t, Respond(400, ErrorBody(InvalidJson)))
    case Object(fields) =>
      var newName := Field(fields, "npc_name");
      if !Truthy(newName) then (t, Respond(400, ErrorBody("NPC name is required")))
      else
        var t2 := t[u := t[u].(curr := newName)];
        if !HasCurrent(t2, u) then (t2, Crash)
        else
          var (st, persona) := ConfigRead(Current(t2, u), fs);
          (UpdateNpc(t2, u, newName.value, st), Respond(200, NpcBody(st.name, persona, st.history)))
  }

  /** POST /reset, once get_session has run: reset the current NPC, reloading its persona file. */
  function ResetNpcIn(t: Table, u: string, fs: FileSystem): (r: (Table, Outcome))
    requires u in t
    ensures OthersKept(t, r.0, u)
    ensures r.1 == Crash ==> r.0 == t
  {
    if !HasCurrent(t, u) then (t, Crash)
    else
      var name := t[u].curr.value;
      (UpdateNpc(t, u, name, AfterReset(Current(t, u), Some(name), None, None, fs)),
       Respond(200, MessageBody("Conversations reset")))
  }

  /** GET /getConfigStr, once get_session has run: the current NPC's persona text. */
  function GetConfigStrIn(t: Table, u: string, fs: FileSystem): (r: (Table, Outcome))
    requires u in t
    ensures OthersKept(t, r.0, u)
    ensures r.1 == Crash ==> r.0 == t
  {
    if !HasCurrent(t, u) then (t, Crash)
    else
      var (st, persona) := ConfigRead(Current(t, u), fs);
      (UpdateNpc(t, u, t[u].curr.value, st), Respond(200, ConfigBody(persona)))
  }

  /** POST /setConfigStr, once get_session has run: a non-empty persona resets the current NPC. */
  function SetConfigStrIn(t: Table, u: string, body: Json, fs: FileSystem): (r: (Table, Outcome))
    requires u in t
    ensures OthersKept(t, r.0, u)
    ensures r.1 == Respond(200, MessageBody("config_str set")) || r.0 == t
  {
    if !CanLookUp(t, u) then (t, Crash)
    else
      match body
      case NoJson => (t, Respond(400, ErrorBody(InvalidJson)))
      case Object(fields) =>
        var persona := Field(fields, "config_str");
        if !Truthy(persona) then (t, Respond(400, ErrorBody("config_str is required")))
        else if !HasCurrent(t, u) then (t, Crash)
        else
          var name := t[u].curr.value;
          (UpdateNpc(t, u, name, AfterReset(Current(t, u), Some(name), persona, None, fs)),
           Respond(200, MessageBody("config_str set")))
  }

  /** GET /getTaskStatus, once get_session has run: the current NPC's task status. */
  function GetTaskStatusIn(t: Table, u: string): (r: (Table, Outcome))
    requires u in t
    ensures r.0 == t
    ensures r.1.Respond? <==> HasCurrent(t, u)
  {
    if !HasCurrent(t, u) then (t, Crash)
    else (t, Respond(200, StatusBody(Current(t, u).status)))
  }

  /**
   * POST /setTaskStatus, once get_session has run: store any non-empty value as the current NPC's
   * status. Unlike set_task_status on the NPC, the value is not checked against the known states.
   */
  function SetTaskStatusIn(t: Table, u: string, body: Json): (r: (Table, Outcome))
    requires u in t
    ensures OthersKept(t, r.0, u)
    ensures r.1 == Respond(200, MessageBody("task_status set")) || r.0 == t
  {
    if !CanLookUp(t, u) then (t, Crash)
    else
      match body
      case NoJson => (t, Respond(400, ErrorBody(InvalidJson)))
      case Object(fields) =>
        var status := Field(fields, "task_status");
        if !Truthy(status) then (t, Respond(400, ErrorBody("task_status is required")))
        else if !HasCurrent(t, u) then (t, Crash)
        else
          (UpdateNpc(t, u, t[u].curr.value, Current(t, u).(status := status.value)),
           Respond(200, MessageBody("task_status set")))
  }

  // Each route handler: get_session, then the handler's work in the fetched session.

  function GetConversationStep(t: Table, u: string, fs: FileSystem): (r: (Table, Outcome))
    ensures u in r.0 && OthersKept(t, r.0, u)
  {
    GetConversationIn(GetSessionStep(t, u, fs), u)
  }

  function PostMessageStep(t: Table, u: string, body: Json, llm: Llm, fs: FileSystem): (r: (Table, Outcome))
    ensures u in r.0 && OthersKept(t, r.0, u)
  {
    PostMessageIn(GetSessionStep(t, u, fs), u, body, llm)
  }

  function ChangeNpcStep(t: Table, u: string, body: Json, fs: FileSystem): (r: (Table, Outcome))
    ensures u in r.0 && OthersKept(t, r.0, u)
  {
    ChangeNpcIn(GetSessionStep(t, u, fs), u, body, fs)
  }

  function ResetNpcStep(t: Table, u: string, fs: FileSystem): (r: (Table, Outcome))
    ensures u in r.0 && OthersKept(t, r.0, u)
  {
    ResetNpcIn(GetSessionStep(t, u, fs), u, fs)
  }

  function GetConfigStrStep(t: Table, u: string, fs: FileSystem): (r: (Table, Outcome))
    ensures u in r.0 && OthersKept(t, r.0, u)
  {
    GetConfigStrIn(GetSessionStep(t, u, fs), u, fs)
  }

  function SetConfigStrStep(t: Table, u: string, body: Json, fs: FileSystem): (r: (Table, Outcome))
    ensures u in r.0 && OthersKept(t, r.0, u)
  {
    SetConfigStrIn(GetSessionStep(t, u, fs), u, body, fs)
  }

  function GetTaskStatusStep(t: Table, u: string, fs: FileSystem): (r: (Table, Outcome))
    ensures u in r.0 && OthersKept(t, r.0, u)
  {
    GetTaskStatusIn(GetSessionStep(t, u, fs), u)
  }

  function SetTaskStatusStep(t: Table, u: string, body: Json, fs: FileSystem): (r: (Table, Outcome))
    ensures u in r.0 && OthersKept(t, r.0, u)
  {
    SetTaskStatusIn(GetSessionStep(t, u, fs), u, body)
  }

  // ---------------------------------------------------------------------------------------
  // Properties of the handlers
  // ---------------------------------------------------------------------------------------

  /**
   * get_session on an unseen user adds exactly that user, with the NPCs Ted, Barry and Mike,
   * each under its own name with no history and status "start", and Ted current; every other
   * session is as it was.
   */
  lemma {:induction false} GetSessionCreatesDefaults(t: Table, u: string, fs: FileSystem)
    requires u !in t
    ensures var r := GetSessionStep(t, u, fs);
      && r.Keys == t.Keys + {u}
      && (forall v | v in t :: r[v] == t[v])
      && r[u].curr == Some("Ted")
      && r[u].npcs.Some? && r[u].npcs.value.Keys == DefaultNpcNames
      && forall n | n in r[u].npcs.value ::
           var st := r[u].npcs.value[n];
           st.name == n && st.history == [] && st.status == "start"
  {
    InitialOutcome("Ted", fs);
    InitialOutcome("Barry", fs);
    InitialOutcome("Mike", fs);
  }

  /** get_session on a known user changes nothing, so a second call is the same as the first. */
  lemma GetSessionIdempotent(t: Table, u: string, fs: FileSystem)
    ensures u in t ==> GetSessionStep(t, u, fs) == t
    ensures GetSessionStep(GetSessionStep(t, u, fs), u, fs) == GetSessionStep(t, u, fs)
  {
  }

  /**
   * After SessionManager.reset the user's key stays, so get_session hands back the emptied
   * session instead of new defaults, and every handler that needs the current NPC then fails;
   * change_npc fails too once it gets a name, after storing that name.
   */
  lemma ResetSessionBreaksHandlers(t: Table, u: string, body: Json, llm: Llm, fs: FileSystem)
    ensures var t1 := ResetSessionStep(t, u);
      && GetSessionStep(t1, u, fs) == t1 && t1[u] == EmptySession
      && GetConversationStep(t1, u, fs) == (t1, Crash)
      && PostMessageStep(t1, u, body, llm, fs) == (t1, Crash)
      && ResetNpcStep(t1, u, fs) == (t1, Crash)
      && GetConfigStrStep(t1, u, fs) == (t1, Crash)
      && SetConfigStrStep(t1, u, body, fs) == (t1, Crash)
      && GetTaskStatusStep(t1, u, fs) == (t1, Crash)
      && SetTaskStatusStep(t1, u, body, fs) == (t1, Crash)
      && (body.Object? && Truthy(Field(body.fields, "npc_name")) ==>
            ChangeNpcStep(t1, u, body, fs) == (t1[u := SessionState(None, Field(body.fields, "npc_name"))], Crash))
  {
  }

  /**
   * A conversation POST without a JSON body, or without a non-empty message, is answered 400
   * and changes nothing beyond what get_session did.
   */
  lemma BadMessageRejected(t: Table, u: string, body: Json, llm: Llm, fs: FileSystem)
    requires CanLookUp(GetSessionStep(t, u, fs), u)
    requires body.NoJson? || !Truthy(Field(body.fields, "message"))
    ensures var (r, out) := PostMessageStep(t, u, body, llm, fs);
      r == GetSessionStep(t, u, fs) && out.Respond? && out.code == 400
  {
  }

  /**
   * When the current NPC name names no NPC, a conversation GET, and a POST of a non-empty
   * message, are answered 404 with that name and change nothing beyond get_session.
   */
  lemma MissingNpcNotFound(t: Table, u: string, message: string, llm: Llm, fs: FileSystem)
    requires var t1 := GetSessionStep(t, u, fs); CanLookUp(t1, u) && !HasCurrent(t1, u)
    requires message != ""
    ensures var t1 := GetSessionStep(t, u, fs);
      var missing := Respond(404, ErrorBody("NPC " + t1[u].curr.value + " not found"));
      && GetConversationStep(t, u, fs) == (t1, missing)
      && PostMessageStep(t, u, Object(map["message" := message]), llm, fs) == (t1, missing)
  {
  }

  /** Two tables hold the same users, the same NPCs, and the same history and status for each. */
  ghost predicate SameConversations(a: Table, b: Table) {
    && a.Keys == b.Keys
    && forall v | v in a ::
         && a[v].npcs.Some? == b[v].npcs.Some?
         && (a[v].npcs.Some? ==>
               && a[v].npcs.value.Keys == b[v].npcs.value.Keys
               && forall n | n in a[v].npcs.value ::
                    && a[v].npcs.value[n].history == b[v].npcs.value[n].history
                    && a[v].npcs.value[n].status == b[v].npcs.value[n].status)
  }

  lemma {:induction false} SameConversationsTransitive(a: Table, b: Table, c: Table)
    requires SameConversations(a, b) && SameConversations(b, c)
    ensures SameConversations(a, c)
  {
    forall v | v in a
      ensures a[v].npcs.Some? == c[v].npcs.Some?
      ensures a[v].npcs.Some? ==> a[v].npcs.value.Keys == c[v].npcs.value.Keys
    {
    }
    forall v, n | v in a && a[v].npcs.Some? && n in a[v].npcs.value
      ensures a[v].npcs.value[n].history == c[v].npcs.value[n].history
      ensures a[v].npcs.value[n].status == c[v].npcs.value[n].status
    {
      assert n in b[v].npcs.value;
    }
  }

  /** Replacing one NPC by a state with the same history and status keeps the conversations. */
  lemma UpdateNpcKeepsConversations(t: Table, u: string, n: string, st: NpcState)
    requires u in t && t[u].npcs.Some? && n in t[u].npcs.value
    requires st.history == t[u].npcs.value[n].history && st.status == t[u].npcs.value[n].status
    ensures SameConversations(t, UpdateNpc(t, u, n, st))
  {
    var r := UpdateNpc(t, u, n, st);
    assert r[u].npcs.value.Keys == t[u].npcs.value.Keys;
  }

  /** Changing only a session's current name keeps the conversations. */
  lemma CurrentChangeKeepsConversations(t: Table, u: string, curr: Option<string>)
    requires u in t
    ensures SameConversations(t, t[u := t[u].(curr := curr)])
  {
  }

  /**
   * change_npc stores any non-empty name as current, whether or not an NPC has it, and fails
   * exactly when no NPC of the session has that name.
   */
  lemma ChangeNpcStoresAnyName(t: Table, u: string, name: string, fs: FileSystem)
    requires name != ""
    ensures var (r, out) := ChangeNpcStep(t, u, Object(map["npc_name" := name]), fs);
      && r[u].curr == Some(name)
      && (out.Crash? <==> !HasCurrent(r, u))
      && (out.Respond? ==> out.code == 200 && out.body.NpcBody? && out.body.configStr == r[u].npcs.value[name].config.value)
  {
  }

  /**
   * change_npc touches no NPC's history or status (it only loads the chosen NPC's persona when
   * none is held yet) and no other user's session.
   */
  lemma {:induction false} ChangeNpcKeepsConversations(t: Table, u: string, body: Json, fs: FileSystem)
    ensures var t1 := GetSessionStep(t, u, fs);
      var r := ChangeNpcStep(t, u, body, fs).0;
      SameConversations(t1, r) && forall v | v in t1 && v != u :: r[v] == t1[v]
  {
    var t1 := GetSessionStep(t, u, fs);
    var r := ChangeNpcStep(t, u, body, fs).0;
    if body.Object? && Truthy(Field(body.fields, "npc_name")) {
      var name := Field(body.fields, "npc_name").value;
      var t2 := t1[u := t1[u].(curr := Some(name))];
      CurrentChangeKeepsConversations(t1, u, Some(name));
      if HasCurrent(t2, u) {
        var st := ConfigRead(Current(t2, u), fs).0;
        assert r == UpdateNpc(t2, u, name, st);
        UpdateNpcKeepsConversations(t2, u, name, st);
        SameConversationsTransitive(t1, t2, r);
      } else {
        assert r == t2;
      }
    } else {
      assert r == t1;
    }
  }

  /**
   * Switching to another NPC and back keeps every NPC's history and status, and the first NPC
   * is current again.
   */
  lemma {:induction false} SwitchBackPreservesHistory(t: Table, u: string, there: string, back: string, fs: FileSystem)
    requires there != "" && back != ""
    ensures var t1 := GetSessionStep(t, u, fs);
      var r1 := ChangeNpcStep(t, u, Object(map["npc_name" := there]), fs).0;
      var r2 := ChangeNpcStep(r1, u, Object(map["npc_name" := back]), fs).0;
      SameConversations(t1, r2) && r2[u].curr == Some(back)
  {
    var t1 := GetSessionStep(t, u, fs);
    var r1 := ChangeNpcStep(t, u, Object(map["npc_name" := there]), fs).0;
    ChangeNpcKeepsConversations(t, u, Object(map["npc_name" := there]), fs);
    ChangeNpcKeepsConversations(r1, u, Object(map["npc_name" := back]), fs);
    GetSessionIdempotent(r1, u, fs);
    var r2 := ChangeNpcStep(r1, u, Object(map["npc_name" := back]), fs).0;
    SameConversationsTransitive(t1, r1, r2);
  }

  /**
   * The setTaskStatus route stores any non-empty value, known or not; a value outside the four
   * known states then keeps the status hint out of what the NPC sends to the model.
   */
  lemma UnknownStatusSuppressesHint(t: Table, u: string, status: string, input: string, fs: FileSystem)
    requires HasCurrent(GetSessionStep(t, u, fs), u)
    requires status != ""
    ensures var (r, out) := SetTaskStatusStep(t, u, Object(map["task_status" := status]), fs);
      && out == Respond(200, MessageBody("task_status set"))
      && HasCurrent(r, u) && Current(r, u).status == status
      && (SentText(input, Current(r, u).status) == input <==> status !in TaskStatus)
  {
  }

  /**
   * A value stored through the setTaskStatus route is what the getTaskStatus route then answers,
   * whether or not it is one of the four known states.
   */
  lemma {:induction false} SetTaskStatusThenGet(t: Table, u: string, status: string, fs: FileSystem)
    requires HasCurrent(GetSessionStep(t, u, fs), u)
    requires status != ""
    ensures var r := SetTaskStatusStep(t, u, Object(map["task_status" := status]), fs).0;
      GetTaskStatusStep(r, u, fs) == (r, Respond(200, StatusBody(status)))
  {
    var r := SetTaskStatusStep(t, u, Object(map["task_status" := status]), fs).0;
    GetSessionIdempotent(r, u, fs);
  }

  /**
   * Setting a non-empty persona resets the current NPC (no history, status "start") and the
   * getConfigStr route then answers with exactly that text.
   */
  lemma {:induction false} SetConfigThenGet(t: Table, u: string, text: string, fs: FileSystem)
    requires HasCurrent(GetSessionStep(t, u, fs), u)
    requires text != ""
    ensures var (r, out) := SetConfigStrStep(t, u, Object(map["config_str" := text]), fs);
      && out == Respond(200, MessageBody("config_str set"))
      && HasCurrent(r, u) && Current(r, u).history == [] && Current(r, u).status == "start"
      && GetConfigStrStep(r, u, fs) == (r, Respond(200, ConfigBody(text)))
  {
    var t1 := GetSessionStep(t, u, fs);
    var name := t1[u].curr.value;
    ResetOutcome(Current(t1, u), Some(name), Some(text), None, fs);
    ConfigReadAfterReset(Current(t1, u), Some(name), text, None, fs);
    var r := SetConfigStrStep(t, u, Object(map["config_str" := text]), fs).0;
    GetSessionIdempotent(r, u, fs);
    assert UpdateNpc(r, u, name, Current(r, u)) == r by {
      assert r[u].npcs.value[name := Current(r, u)] == r[u].npcs.value;
    }
  }

  /**
   * The reset route clears the current NPC's history and puts its status back to "start", naming
   * it after its key in the session; the session's other NPCs, its current name and every other session stay.
   */
  lemma {:induction false} ResetNpcTouchesOnlyCurrent(t: Table, u: string, fs: FileSystem)
    requires HasCurrent(GetSessionStep(t, u, fs), u)
    ensures var t1 := GetSessionStep(t, u, fs);
      var (r, out) := ResetNpcStep(t, u, fs);
      && out == Respond(200, MessageBody("Conversations reset"))
      && r.Keys == t1.Keys && (forall v | v in t1 && v != u :: r[v] == t1[v])
      && r[u].curr == t1[u].curr && HasCurrent(r, u)
      && r[u].npcs.value.Keys == t1[u].npcs.value.Keys
      && (forall n | n in t1[u].npcs.value && n != t1[u].curr.value :: r[u].npcs.value[n] == t1[u].npcs.value[n])
      && Current(r, u).history == [] && Current(r, u).status == "start"
      && Current(r, u).name == t1[u].curr.value
  {
    var t1 := GetSessionStep(t, u, fs);
    var name := t1[u].curr.value;
    ResetOutcome(Current(t1, u), Some(name), None, None, fs);
  }

  // ---------------------------------------------------------------------------------------
  // The session table as objects
  // ---------------------------------------------------------------------------------------

  /** A stored session: the NPC objects by name and the current NPC name, each optional. */
  datatype Session = Session(npcs: Option<map<string, Npc>>, curr: Option<string>)

  /** SessionManager: the table from user id to session, updated in place. */
  class SessionManager {
    var sessions: map<string, Session>
    /** The NPC objects held by the table and their memories. */
    ghost var Repr: set<object>
    /** The table slot (user id, NPC name) each NPC object and each memory object was put in. */
    ghost var NpcSlot: map<Npc, (string, string)>
    ghost var MemorySlot: map<ChatHistory, (string, string)>

    ghost predicate Has(u: string, n: string)
      reads this
    {
      u in sessions && sessions[u].npcs.Some? && n in sessions[u].npcs.value
    }

    ghost function At(u: string, n: string): Npc
      reads this
      requires Has(u, n)
    {
      sessions[u].npcs.value[n]
    }

    /**
     * Every NPC in the table, and its memory, is in Repr and belongs to its own slot, so no two
     * entries of the table share an NPC object or a memory object.
     */
    ghost predicate Valid()
      reads this, Repr
    {
      forall u, n | Has(u, n) ::
        && At(u, n) in Repr && At(u, n) in NpcSlot && NpcSlot[At(u, n)] == (u, n)
        && At(u, n).memory in Repr && At(u, n).memory in MemorySlot && MemorySlot[At(u, n).memory] == (u, n)
    }

    ghost function SessionView(u: string): SessionState
      reads this, Repr
      requires Valid() && u in sessions
    {
      SessionState(
        if sessions[u].npcs.Some? then Some(map n | n in sessions[u].npcs.value :: At(u, n).State()) else None,
        sessions[u].curr)
    }

    /** The value of the table. */
    ghost function View(): Table
      reads this, Repr
      requires Valid()
    {
      map u | u in sessions :: SessionView(u)
    }

    constructor ()
      ensures Valid() && View() == map[]
    {
      sessions := map[];
      Repr := {};
      NpcSlot := map[];
      MemorySlot := map[];
    }

    /** A session whose entry and NPC objects are as they were has the value it had. */
    twostate lemma SessionKept(new v: string)
      requires old(Valid()) && Valid() && v in old(sessions) && v in sessions
      requires sessions[v] == old(sessions[v])
      requires forall m | Has(v, m) :: At(v, m).State() == old(At(v, m).State())
      ensures SessionView(v) == old(SessionView(v))
    {
      if sessions[v].npcs.Some? {
        var now, before := SessionView(v).npcs.value, old(SessionView(v)).npcs.value;
        forall m | m in now ensures m in before && now[m] == before[m] {
          assert Has(v, m) && old(Has(v, m)) && old(At(v, m)) == At(v, m);
        }
        assert now == before;
      }
    }

    /**
     * After one NPC object (and perhaps its memory, replaced by a fresh one) has changed and
     * nothing else has, the table is still valid and every other NPC has the value it had.
     */
    twostate lemma NpcUpdatedValid(new u: string, new n: string)
      requires old(Valid()) && old(Has(u, n))
      requires sessions == old(sessions) && NpcSlot == old(NpcSlot)
      requires At(u, n).memory == old(At(u, n).memory) || fresh(At(u, n).memory)
      requires Repr == old(Repr) + {At(u, n).memory}
      requires MemorySlot == old(MemorySlot)[At(u, n).memory := (u, n)]
      requires forall o | o in old(Repr) && o != this && o != At(u, n) && o != old(At(u, n).memory) :: unchanged(o)
      ensures Valid()
      ensures forall v, m | Has(v, m) && (v != u || m != n) :: At(v, m).State() == old(At(v, m).State())
    {
      forall v, m | Has(v, m) && (v != u || m != n)
        ensures At(v, m).State() == old(At(v, m).State())
        ensures At(v, m).memory in Repr && At(v, m).memory in MemorySlot && MemorySlot[At(v, m).memory] == (v, m)
      {
        assert old(Has(v, m)) && old(At(v, m)) == At(v, m);
        assert unchanged(At(v, m));
        assert old(At(v, m).memory) == At(v, m).memory;
        assert unchanged(At(v, m).memory);
      }
    }

    /**
     * After one NPC object (and perhaps its memory, replaced by a fresh one) has changed and
     * nothing else has, the table's value changes at that NPC only.
     */
    twostate lemma NpcUpdated(new u: string, new n: string)
      requires old(Valid()) && old(Has(u, n))
      requires sessions == old(sessions) && NpcSlot == old(NpcSlot)
      requires At(u, n).memory == old(At(u, n).memory) || fresh(At(u, n).memory)
      requires Repr == old(Repr) + {At(u, n).memory}
      requires MemorySlot == old(MemorySlot)[At(u, n).memory := (u, n)]
      requires forall o | o in old(Repr) && o != this && o != At(u, n) && o != old(At(u, n).memory) :: unchanged(o)
      ensures Valid()
      ensures View() == UpdateNpc(old(View()), u, n, At(u, n).State())
    {
      NpcUpdatedValid(u, n);
      var cur := At(u, n);
      forall v | v in sessions
        ensures SessionView(v) == UpdateNpc(old(View()), u, n, cur.State())[v]
      {
        if v == u {
          var now, before := SessionView(u).npcs.value, old(SessionView(u)).npcs.value;
          forall m | m in now ensures m in before && now[m] == before[n := cur.State()][m] {
            assert Has(u, m) && old(Has(u, m));
          }
          assert now.Keys == before.Keys;
          assert now == before[n := cur.State()];
        } else {
          SessionKept(v);
        }
      }
    }

    /** Adding a session of three fresh NPCs keeps the table valid and the other NPCs as they were. */
    twostate lemma SessionAddedValid(new u: string, new ted: Npc, new barry: Npc, new mike: Npc)
      requires old(Valid()) && u !in old(sessions)
      requires fresh(ted) && fresh(ted.memory)
      requires fresh(barry) && fresh(barry.memory)
      requires fresh(mike) && fresh(mike.memory)
      requires ted != barry && ted != mike && barry != mike
      requires ted.memory != barry.memory && ted.memory != mike.memory && barry.memory != mike.memory
      requires sessions == old(sessions)[u := Session(Some(map["Ted" := ted, "Barry" := barry, "Mike" := mike]), Some(DefaultNpc))]
      requires Repr == old(Repr) + {ted, ted.memory, barry, barry.memory, mike, mike.memory}
      requires NpcSlot == old(NpcSlot)[ted := (u, "Ted")][barry := (u, "Barry")][mike := (u, "Mike")]
      requires MemorySlot == old(MemorySlot)[ted.memory := (u, "Ted")][barry.memory := (u, "Barry")][mike.memory := (u, "Mike")]
      requires forall o | o in old(Repr) && o != this :: unchanged(o)
      ensures Valid()
      ensures forall v, m | Has(v, m) && v != u :: old(Has(v, m)) && At(v, m).State() == old(At(v, m).State())
    {
      forall v, m | Has(v, m) && v != u
        ensures At(v, m) in Repr && At(v, m) in NpcSlot && NpcSlot[At(v, m)] == (v, m)
        ensures At(v, m).memory in Repr && At(v, m).memory in MemorySlot && MemorySlot[At(v, m).memory] == (v, m)
        ensures old(Has(v, m)) && At(v, m).State() == old(At(v, m).State())
      {
        assert old(Has(v, m)) && old(At(v, m)) == At(v, m);
        assert unchanged(At(v, m)) && unchanged(At(v, m).memory);
      }
    }

    /** A session holding three NPCs in their initial states has the default session's value. */
    lemma DefaultSessionView(u: string, fs: FileSystem, ted: Npc, barry: Npc, mike: Npc)
      requires Valid() && u in sessions
      requires sessions[u] == Session(Some(map["Ted" := ted, "Barry" := barry, "Mike" := mike]), Some(DefaultNpc))
      requires ted.State() == Initial("Ted", fs)
      requires barry.State() == Initial("Barry", fs)
      requires mike.State() == Initial("Mike", fs)
      ensures SessionView(u) == DefaultSession(fs)
    {
      assert Has(u, "Ted") && Has(u, "Barry") && Has(u, "Mike");
      assert SessionView(u).npcs.value == DefaultSession(fs).npcs.value;
    }

    /** Adding a session of three fresh default NPCs adds the default session to the table. */
    twostate lemma SessionAdded(new u: string, new fs: FileSystem, new ted: Npc, new barry: Npc, new mike: Npc)
      requires old(Valid()) && u !in old(sessions)
      requires fresh(ted) && fresh(ted.memory)
      requires fresh(barry) && fresh(barry.memory)
      requires fresh(mike) && fresh(mike.memory)
      requires ted != barry && ted != mike && barry != mike
      requires ted.memory != barry.memory && ted.memory != mike.memory && barry.memory != mike.memory
      requires sessions == old(sessions)[u := Session(Some(map["Ted" := ted, "Barry" := barry, "Mike" := mike]), Some(DefaultNpc))]
      requires Repr == old(Repr) + {ted, ted.memory, barry, barry.memory, mike, mike.memory}
      requires NpcSlot == old(NpcSlot)[ted := (u, "Ted")][barry := (u, "Barry")][mike := (u, "Mike")]
      requires MemorySlot == old(MemorySlot)[ted.memory := (u, "Ted")][barry.memory := (u, "Barry")][mike.memory := (u, "Mike")]
      requires forall o | o in old(Repr) && o != this :: unchanged(o)
      requires Valid() ==> SessionView(u) == DefaultSession(fs)
      ensures Valid()
      ensures View() == GetSessionStep(old(View()), u, fs)
    {
      SessionAddedValid(u, ted, barry, mike);
      forall v | v in old(sessions) ensures SessionView(v) == old(SessionView(v)) {
        SessionKept(v);
      }
      forall v | v in sessions ensures SessionView(v) == GetSessionStep(old(View()), u, fs)[v] {
      }
    }

    /** get_session: the user's session, created with the three default NPCs when unseen. */
    method GetSession(u: string, fs: FileSystem) returns (s: Session)
      requires Valid()
      modifies this
      ensures Valid() && fresh(Repr - old(Repr))
      ensures View() == GetSessionStep(old(View()), u, fs)
      ensures u in sessions && s == sessions[u]
      ensures old(u in sessions) ==> sessions == old(sessions) && Repr == old(Repr)
    {
      if u !in sessions {
        var ted := new Npc("Ted", fs);
        var barry := new Npc("Barry", fs);
        var mike := new Npc("Mike", fs);
        var npcs := map["Ted" := ted, "Barry" := barry, "Mike" := mike];
        sessions := sessions[u := Session(Some(npcs), Some(DefaultNpc))];
        ghost var added: set<object> := {ted, ted.memory, barry, barry.memory, mike, mike.memory};
        assert fresh(added);
        Repr := Repr + added;
        NpcSlot := NpcSlot[ted := (u, "Ted")][barry := (u, "Barry")][mike := (u, "Mike")];
        MemorySlot := MemorySlot[ted.memory := (u, "Ted")][barry.memory := (u, "Barry")][mike.memory := (u, "Mike")];
        SessionAddedValid(u, ted, barry, mike);
        DefaultSessionView(u, fs, ted, barry, mike);
        SessionAdded(u, fs, ted, barry, mike);
      }
      s := sessions[u];
    }

    /** SessionManager.reset: the user's entry becomes an empty session; the key stays. */
    method Reset(u: string)
      requires Valid()
      modifies this
      ensures Valid() && Repr == old(Repr)
      ensures View() == ResetSessionStep(old(View()), u)
    {
      sessions := sessions[u := Session(None, None)];
      forall v, m | Has(v, m)
        ensures At(v, m) in Repr && At(v, m) in NpcSlot && NpcSlot[At(v, m)] == (v, m)
        ensures At(v, m).memory in Repr && At(v, m).memory in MemorySlot && MemorySlot[At(v, m).memory] == (v, m)
      {
        assert old(Has(v, m)) && old(At(v, m)) == At(v, m);
      }
      forall v | v in old(sessions) && v != u ensures SessionView(v) == old(SessionView(v)) {
        forall m | Has(v, m) ensures At(v, m).State() == old(At(v, m).State()) {
          assert old(Has(v, m)) && old(At(v, m)) == At(v, m);
        }
        SessionKept(v);
      }
    }

    /** What the table's value says about a stored session: same current name, same NPC names. */
    lemma ViewAt(u: string)
      requires Valid() && u in sessions
      ensures u in View() && View()[u] == SessionView(u)
      ensures View()[u].curr == sessions[u].curr
      ensures View()[u].npcs.Some? == sessions[u].npcs.Some?
      ensures sessions[u].npcs.Some? ==> View()[u].npcs.value.Keys == sessions[u].npcs.value.Keys
      ensures forall n | Has(u, n) :: View()[u].npcs.value[n] == At(u, n).State()
    {
    }

    /** `sess['curr_npc'] = name` on a stored session. */
    method SetCurrent(u: string, name: string)
      requires Valid() && u in sessions
      modifies this
      ensures Valid() && Repr == old(Repr) && NpcSlot == old(NpcSlot) && MemorySlot == old(MemorySlot)
      ensures sessions == old(sessions)[u := old(sessions)[u].(curr := Some(name))]
      ensures View() == old(View())[u := old(View())[u].(curr := Some(name))]
    {
      sessions := sessions[u := sessions[u].(curr := Some(name))];
      forall v, m | Has(v, m)
        ensures At(v, m) in Repr && At(v, m) in NpcSlot && NpcSlot[At(v, m)] == (v, m)
        ensures At(v, m).memory in Repr && At(v, m).memory in MemorySlot && MemorySlot[At(v, m).memory] == (v, m)
      {
        assert old(Has(v, m)) && old(At(v, m)) == At(v, m);
      }
      forall v | v in sessions ensures SessionView(v) == old(View())[u := old(View())[u].(curr := Some(name))][v] {
        forall m | Has(v, m) ensures At(v, m).State() == old(At(v, m).State()) {
          assert old(Has(v, m)) && old(At(v, m)) == At(v, m);
        }
        if v == u {
          if sessions[v].npcs.Some? {
            assert SessionView(v).npcs.value == old(SessionView(v)).npcs.value;
          }
        } else {
          SessionKept(v);
        }
      }
      assert View().Keys == old(View()).Keys;
    }

    /** `npc(message)` on the NPC stored in slot (u, n). */
    method CallAt(u: string, n: string, input: string, llm: Llm) returns (reply: string)
      requires Valid() && Has(u, n)
      modifies Repr
      ensures Valid() && Repr == old(Repr) && sessions == old(sessions)
      ensures u in old(View()) && old(View())[u].npcs.Some? && n in old(View())[u].npcs.value
      ensures var (st, r) := AfterCall(old(View())[u].npcs.value[n], input, llm);
        View() == UpdateNpc(old(View()), u, n, st) && reply == r
    {
      ViewAt(u);
      var npc := sessions[u].npcs.value[n];
      reply := npc.Call(input, llm);
      NpcUpdated(u, n);
    }

    /** `npc.config_str` on the NPC stored in slot (u, n). */
    method ConfigAt(u: string, n: string, fs: FileSystem) returns (persona: string)
      requires Valid() && Has(u, n)
      modifies Repr
      ensures Valid() && Repr == old(Repr) && sessions == old(sessions)
      ensures u in old(View()) && old(View())[u].npcs.Some? && n in old(View())[u].npcs.value
      ensures var (st, p) := ConfigRead(old(View())[u].npcs.value[n], fs);
        View() == UpdateNpc(old(View()), u, n, st) && persona == p
    {
      ViewAt(u);
      var npc := sessions[u].npcs.value[n];
      persona := npc.ConfigStr(fs);
      NpcUpdated(u, n);
    }

    /** `npc.reset(npc_name=n, config_str=configArg)` on the NPC stored in slot (u, n). */
    method ResetAt(u: string, n: string, configArg: Option<string>, fs: FileSystem)
      requires Valid() && Has(u, n)
      modifies this, Repr
      ensures Valid() && fresh(Repr - old(Repr))
      ensures u in old(View()) && old(View())[u].npcs.Some? && n in old(View())[u].npcs.value
      ensures View() == UpdateNpc(old(View()), u, n, AfterReset(old(View())[u].npcs.value[n], Some(n), configArg, None, fs))
    {
      ViewAt(u);
      var npc := sessions[u].npcs.value[n];
      ghost var before := npc.State();
      assert old(View())[u].npcs.value[n] == before;
      var _ := npc.Reset(Some(n), configArg, None, fs);
      ghost var added: set<object> := {npc.memory};
      assert fresh(added);
      Repr := Repr + added;
      MemorySlot := MemorySlot[npc.memory := (u, n)];
      assert Has(u, n) && At(u, n) == npc && Repr == old(Repr) + {npc.memory};
      assert forall o | o in old(Repr) && o != this && o != npc :: unchanged(o);
      NpcUpdated(u, n);
      assert At(u, n).State() == AfterReset(before, Some(n), configArg, None, fs);
    }

    /** `npc.task_status = status` on the NPC stored in slot (u, n). */
    method SetStatusAt(u: string, n: string, status: string)
      requires Valid() && Has(u, n)
      modifies Repr
      ensures Valid() && Repr == old(Repr) && sessions == old(sessions)
      ensures u in old(View()) && old(View())[u].npcs.Some? && n in old(View())[u].npcs.value
      ensures View() == UpdateNpc(old(View()), u, n, old(View())[u].npcs.value[n].(status := status))
    {
      ViewAt(u);
      var npc := sessions[u].npcs.value[n];
      npc.taskStatus := status;
      NpcUpdated(u, n);
    }

    // Each handler's work in the session get_session has just fetched.

    method GetConversationInSession(u: string) returns (out: Outcome)
      requires Valid() && u in sessions
      ensures (View(), out) == GetConversationIn(View(), u)
    {
      var s := sessions[u];
      ViewAt(u);
      if s.curr.None? || s.npcs.None? {
        return Crash;
      }
      if s.curr.value in s.npcs.value {
        out := Crash;
      } else {
        out := Respond(404, ErrorBody(NotFound(s.curr.value)));
      }
    }

    method PostMessageInSession(u: string, body: Json, llm: Llm) returns (out: Outcome)
      requires Valid() && u in sessions
      modifies Repr
      ensures Valid() && Repr == old(Repr)
      ensures (View(), out) == PostMessageIn(old(View()), u, body, llm)
    {
      var s := sessions[u];
      ViewAt(u);
      if s.curr.None? || s.npcs.None? {
        return Crash;
      }
      if body.NoJson? {
        return Respond(400, ErrorBody(InvalidJson));
      }
      var message := Field(body.fields, "message");
      if !Truthy(message) {
        return Respond(400, ErrorBody("Message is required"));
      }
      if s.curr.value !in s.npcs.value {
        return Respond(404, ErrorBody(NotFound(s.curr.value)));
      }
      var reply := CallAt(u, s.curr.value, message.value, llm);
      out := Respond(201, MessageBody(reply));
    }

    method ChangeNpcInSession(u: string, body: Json, fs: FileSystem) returns (out: Outcome)
      requires Valid() && u in sessions
      modifies this, Repr
      ensures Valid() && Repr == old(Repr)
      ensures (View(), out) == ChangeNpcIn(old(View()), u, body, fs)
    {
      if body.NoJson? {
        return Respond(400, ErrorBody(InvalidJson));
      }
      var newName := Field(body.fields, "npc_name");
      if !Truthy(newName) {
        return Respond(400, ErrorBody("NPC name is required"));
      }
      var name := newName.value;
      SetCurrent(u, name);
      ViewAt(u);
      ghost var t2 := View();
      var s := sessions[u];
      if s.npcs.None? || name !in s.npcs.value {
        return Crash;
      }
      assert HasCurrent(t2, u);
      var npc := s.npcs.value[name];
      var persona := ConfigAt(u, name, fs);
      ghost var st := ConfigRead(Current(t2, u), fs).0;
      assert View() == UpdateNpc(t2, u, name, st);
      ViewAt(u);
      assert Has(u, name) && At(u, name) == npc && npc.State() == st;
      out := Respond(200, NpcBody(npc.npcName, persona, npc.ConvHistory()));
    }

    method ResetNpcInSession(u: string, fs: FileSystem) returns (out: Outcome)
      requires Valid() && u in sessions
      modifies this, Repr
      ensures Valid() && fresh(Repr - old(Repr))
      ensures (View(), out) == ResetNpcIn(old(View()), u, fs)
    {
      var s := sessions[u];
      ViewAt(u);
      if s.curr.None? || s.npcs.None? || s.curr.value !in s.npcs.value {
        return Crash;
      }
      ResetAt(u, s.curr.value, None, fs);
      out := Respond(200, MessageBody("Conversations reset"));
    }

    method GetConfigStrInSession(u: string, fs: FileSystem) returns (out: Outcome)
      requires Valid() && u in sessions
      modifies Repr
      ensures Valid() && Repr == old(Repr)
      ensures (View(), out) == GetConfigStrIn(old(View()), u, fs)
    {
      var s := sessions[u];
      ViewAt(u);
      if s.curr.None? || s.npcs.None? || s.curr.value !in s.npcs.value {
        return Crash;
      }
      var persona := ConfigAt(u, s.curr.value, fs);
      out := Respond(200, ConfigBody(persona));
    }

    method SetConfigStrInSession(u: string, body: Json, fs: FileSystem) returns (out: Outcome)
      requires Valid() && u in sessions
      modifies this, Repr
      ensures Valid() && fresh(Repr - old(Repr))
      ensures (View(), out) == SetConfigStrIn(old(View()), u, body, fs)
    {
      var s := sessions[u];
      ViewAt(u);
      if s.curr.None? || s.npcs.None? {
        return Crash;
      }
      if body.NoJson? {
        return Respond(400, ErrorBody(InvalidJson));
      }
      var persona := Field(body.fields, "config_str");
      if !Truthy(persona) {
        return Respond(400, ErrorBody("config_str is required"));
      }
      if s.curr.value !in s.npcs.value {
        return Crash;
      }
      ResetAt(u, s.curr.value, persona, fs);
      out := Respond(200, MessageBody("config_str set"));
    }

    method GetTaskStatusInSession(u: string) returns (out: Outcome)
      requires Valid() && u in sessions
      ensures (View(), out) == GetTaskStatusIn(View(), u)
    {
      var s := sessions[u];
      ViewAt(u);
      if s.curr.None? || s.npcs.None? || s.curr.value !in s.npcs.value {
        return Crash;
      }
      var npc := s.npcs.value[s.curr.value];
      assert Has(u, s.curr.value) && At(u, s.curr.value) == npc;
      out := Respond(200, StatusBody(npc.taskStatus));
    }

    method SetTaskStatusInSession(u: string, body: Json) returns (out: Outcome)
      requires Valid() && u in sessions
      modifies Repr
      ensures Valid() && Repr == old(Repr)
      ensures (View(), out) == SetTaskStatusIn(old(View()), u, body)
    {
      var s := sessions[u];
      ViewAt(u);
      if s.curr.None? || s.npcs.None? {
        return Crash;
      }
      if body.NoJson? {
        return Respond(400, ErrorBody(InvalidJson));
      }
      var status := Field(body.fields, "task_status");
      if !Truthy(status) {
        return Respond(400, ErrorBody("task_status is required"));
      }
      if s.curr.value !in s.npcs.value {
        return Crash;
      }
      SetStatusAt(u, s.curr.value, status.value);
      out := Respond(200, MessageBody("task_status set"));
    }

    // The route handlers.

    /** GET /conversations/<user_id>. */
    method GetConversation(u: string, fs: FileSystem) returns (out: Outcome)
      requires Valid()
      modifies this
      ensures Valid() && fresh(Repr - old(Repr))
      ensures (View(), out) == GetConversationStep(old(View()), u, fs)
    {
      var _ := GetSession(u, fs);
      out := GetConversationInSession(u);
    }

    /** POST /conversations/<user_id>. */
    method PostMessage(u: string, body: Json, llm: Llm, fs: FileSystem) returns (out: Outcome)
      requires Valid()
      modifies this, Repr
      ensures Valid() && fresh(Repr - old(Repr))
      ensures (View(), out) == PostMessageStep(old(View()), u, body, llm, fs)
    {
      var _ := GetSession(u, fs);
      out := PostMessageInSession(u, body, llm);
    }

    /** POST /changeNPC/<user_id>. */
    method ChangeNpc(u: string, body: Json, fs: FileSystem) returns (out: Outcome)
      requires Valid()
      modifies this, Repr
      ensures Valid() && fresh(Repr - old(Repr))
      ensures (View(), out) == ChangeNpcStep(old(View()), u, body, fs)
    {
      var _ := GetSession(u, fs);
      out := ChangeNpcInSession(u, body, fs);
    }

    /** POST /reset/<user_id>. */
    method ResetNpc(u: string, fs: FileSystem) returns (out: Outcome)
      requires Valid()
      modifies this, Repr
      ensures Valid() && fresh(Repr - old(Repr))
      ensures (View(), out) == ResetNpcStep(old(View()), u, fs)
    {
      var _ := GetSession(u, fs);
      out := ResetNpcInSession(u, fs);
    }

    /** GET /getConfigStr/<user_id>. */
    method GetConfigStr(u: string, fs: FileSystem) returns (out: Outcome)
      requires Valid()
      modifies this, Repr
      ensures Valid() && fresh(Repr - old(Repr))
      ensures (View(), out) == GetConfigStrStep(old(View()), u, fs)
    {
      var _ := GetSession(u, fs);
      out := GetConfigStrInSession(u, fs);
    }

    /** POST /setConfigStr/<user_id>. */
    method SetConfigStr(u: string, body: Json, fs: FileSystem) returns (out: Outcome)
      requires Valid()
      modifies this, Repr
      ensures Valid() && fresh(Repr - old(Repr))
      ensures (View(), out) == SetConfigStrStep(old(View()), u, body, fs)
    {
      var _ := GetSession(u, fs);
      out := SetConfigStrInSession(u, body, fs);
    }

    /** GET /getTaskStatus/<user_id>. */
    method GetTaskStatus(u: string, fs: FileSystem) returns (out: Outcome)
      requires Valid()
      modifies this
      ensures Valid() && fresh(Repr - old(Repr))
      ensures (View(), out) == GetTaskStatusStep(old(View()), u, fs)
    {
      var _ := GetSession(u, fs);
      out := GetTaskStatusInSession(u);
    }

    /** POST /setTaskStatus/<user_id>. */
    method SetTaskStatus(u: string, body: Json, fs: FileSystem) returns (out: Outcome)
      requires Valid()
      modifies this, Repr
      ensures Valid() && fresh(Repr - old(Repr))
      ensures (View(), out) == SetTaskStatusStep(old(View()), u, body, fs)
    {
      var _ := GetSession(u, fs);
      out := SetTaskStatusInSession(u, body);
    }
  }
}
