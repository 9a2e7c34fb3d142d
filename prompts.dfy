/**
 * The text pieces an NPC conversation is built from: the task-status table and the hint it
 * adds to each player message, the system prompt wrapped around an NPC's persona, and the
 * path of an NPC's persona file (npc_langchain.py).
 *
 * The wording of the fixed instruction blocks and of the four hints is not part of the model:
 * each is a constant whose value is left unspecified, so every property proved here holds
 * whatever those texts say. Only the order in which they are put together matters.
 */
module Prompts {
  import opened Wrappers

  /** The instruction blocks placed before and after the persona (PART0, PART1, PART3, PART4). */
  const Part0: string
  const Part1: string
  const Part3: string
  const Part4: string

  /** PART5 is a template with one `{}` placeholder: the text before it and the text after it. */
  const Part5Head: string
  const Part5Tail: string

  /** The hint texts of TASK_STATUS, one per task state. */
  const StartHint: string
  const AcceptedHint: string
  const RewardHint: string
  const FinishedHint: string

  /** TASK_STATUS: the four known task states and the hint each adds to the model's input. */
  const TaskStatus: map<string, string> :=
    map["start" := StartHint, "accepted" := AcceptedHint,
        "reward" := RewardHint, "finished" := FinishedHint]

  /** The status every NPC starts in and returns to on reset. */
  const InitialStatus: string := "start"

  /** The status block appended to a player message: PART5 with the hint filled in. */
  function StatusBlock(hint: string): string {
    Part5Head + hint + Part5Tail
  }

  /**
   * The text handed to the model for one player message: the message itself, followed by a
   * newline and the status block when `status` is one of the four known task states.
   */
  function SentText(input: string, status: string): (sent: string)
    ensures input <= sent
    ensures sent == input <==> status !in TaskStatus
    ensures status in TaskStatus ==> sent[|input|] == '\n'
    ensures status in TaskStatus ==> StatusBlock(TaskStatus[status]) <= sent[|input| + 1..]
  {
    if status in TaskStatus then input + "\n" + StatusBlock(TaskStatus[status]) else input
  }

  /** The markers the persona is enclosed in: `%%%` before it and a newline and `%%%` after it. */
  const PersonaOpen: string := "%%%"
  const PersonaClose: string := "\n%%%"

  /** Everything in the system prompt before the persona, and everything after it. */
  const Preamble: string := Part0 + Part1 + PersonaOpen
  const Closing: string := PersonaClose + Part3 + Part4

  /** The system prompt built around a persona by load_system_prompt. */
  function SystemPrompt(persona: string): (prompt: string)
    ensures |prompt| == |Preamble| + |persona| + |Closing|
  {
    Part0 + Part1 + PersonaOpen + persona + PersonaClose + Part3 + Part4
  }

  /** Reads the persona back out of a system prompt: whatever lies between the fixed parts. */
  function PersonaOf(prompt: string): (persona: Option<string>)
    ensures persona.Some? ==> |persona.value| == |prompt| - |Preamble| - |Closing|
  {
    if |Preamble| + |Closing| <= |prompt|
       && prompt[..|Preamble|] == Preamble
       && prompt[|prompt| - |Closing|..] == Closing
    then Some(prompt[|Preamble|..|prompt| - |Closing|])
    else None
  }

  /** The system prompt carries its persona verbatim: reading it back gives the persona. */
  lemma {:induction false} PersonaRoundTrip(persona: string)
    ensures PersonaOf(SystemPrompt(persona)) == Some(persona)
  {
    var p := SystemPrompt(persona);
    assert p == Preamble + persona + Closing;
    assert p[..|Preamble|] == Preamble;
    assert p[|p| - |Closing|..] == Closing;
    assert p[|Preamble|..|p| - |Closing|] == persona;
  }

  /** Different personas give different system prompts. */
  lemma SystemPromptInjective(a: string, b: string)
    ensures SystemPrompt(a) == SystemPrompt(b) ==> a == b
  {
    PersonaRoundTrip(a);
    PersonaRoundTrip(b);
  }

  /** The directory and the file-name suffix of persona files. */
  const ConfigDir: string := "NPCConfigs"
  const ConfigSuffix: string := "_en.txt"

  /**
   * os.path.join("NPCConfigs", name + "_en.txt") on a POSIX path: the directory, a slash and
   * the file name, except that a file name that is already absolute replaces the directory.
   */
  function ConfigFileName(name: string): (path: string)
    ensures |path| >= |ConfigSuffix| && path[|path| - |ConfigSuffix|..] == ConfigSuffix
  {
    var file := name + ConfigSuffix;
    if file[0] == '/' then file else ConfigDir + "/" + file
  }

  /** Different NPC names never share a persona file. */
  lemma {:induction false} ConfigFileNameInjective(a: string, b: string)
    ensures ConfigFileName(a) == ConfigFileName(b) ==> a == b
  {
    var pa, pb := ConfigFileName(a), ConfigFileName(b);
    if pa == pb {
      var fa, fb := a + ConfigSuffix, b + ConfigSuffix;
      assert pa[..|pa| - |ConfigSuffix|] == if fa[0] == '/' then a else ConfigDir + "/" + a;
      assert pb[..|pb| - |ConfigSuffix|] == if fb[0] == '/' then b else ConfigDir + "/" + b;
      if fa[0] != '/' && fb[0] != '/' {
        assert (ConfigDir + "/" + a)[|ConfigDir| + 1..] == a;
        assert (ConfigDir + "/" + b)[|ConfigDir| + 1..] == b;
      }
    }
  }
}
