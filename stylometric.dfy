/**
  The style profiler of chromadb_backend/stylometric.py: a short description of how a player
  writes, produced by one call of the language model on a fixed analysis prompt.

  The language model is an uninterpreted `Generator`; a `Generated` value carries its text
  together with the prompts the model was called on, in call order, so that "no call" and
  "exactly one call, on this prompt" are statements about the result.
 */
module Stylometric {
  import opened Strings

  /** Uninterpreted `llm.invoke(prompt).content`. */
  type Generator = string -> string

  /** Text produced with the help of the language model, and the prompts it was called on. */
  datatype Generated = Generated(text: string, calls: seq<string>)

  const NEUTRAL_STYLE := "neutral, casual game chat style"

  const STYLE_PROMPT_HEADER :=
    "\nYou are analyzing chat messages from a player in a multiplayer game.\n"
    + "Summarize their style in 2-3 sentences for NPC imitation:\n"
    + "- How they write messages\n"
    + "- Sentence length\n"
    + "- Use of slang, abbreviations, or emojis\n"
    + "- Tone (formal, casual, sarcastic, etc.)\n"
    + "\n"
    + "Messages:\n"

  const STYLE_PROMPT_TAIL := "\n\nPlayer style summary:\n"

  /** The analysis prompt: the fixed header, the messages one per line, the fixed tail. */
  function StylePrompt(messages: seq<string>): string
  {
    STYLE_PROMPT_HEADER + Join(messages, "\n") + STYLE_PROMPT_TAIL
  }

  /**
    `summarize_player_style`: for no messages the neutral default and no model call; otherwise
    exactly one call, on the analysis prompt, whose output is returned stripped.
   */
  function SummarizePlayerStyle(generate: Generator, playerId: string, messages: seq<string>): (g: Generated)
    ensures messages == [] ==> g.text == NEUTRAL_STYLE && g.calls == []
    ensures messages != [] ==> g.calls == [StylePrompt(messages)] && g.text == Strip(generate(g.calls[0]))
    ensures messages != [] && g.text != [] ==> !IsSpace(g.text[0]) && !IsSpace(g.text[|g.text| - 1])
  {
    if messages == [] then Generated(NEUTRAL_STYLE, [])
    else
      var prompt := StylePrompt(messages);
      Generated(Strip(generate(prompt)), [prompt])
  }

  /**
    The prompt embeds the messages between the header and the tail, in input order: cutting the
    header and the tail off and splitting on newlines gives the messages back when none of
    them holds a newline itself.
   */
  lemma StylePromptEmbedsMessages(messages: seq<string>)
    requires messages != []
    requires forall k :: 0 <= k < |messages| ==> '\n' !in messages[k]
    ensures var p := StylePrompt(messages);
            && |STYLE_PROMPT_HEADER| + |STYLE_PROMPT_TAIL| <= |p|
            && p[..|STYLE_PROMPT_HEADER|] == STYLE_PROMPT_HEADER
            && p[|p| - |STYLE_PROMPT_TAIL|..] == STYLE_PROMPT_TAIL
            && Split(p[|STYLE_PROMPT_HEADER|..|p| - |STYLE_PROMPT_TAIL|], '\n') == messages
  {
    var p := StylePrompt(messages);
    var body := Join(messages, "\n");
    assert p[|STYLE_PROMPT_HEADER|..|p| - |STYLE_PROMPT_TAIL|] == body;
    SplitJoin(messages, '\n');
  }

  /** The player id never reaches the prompt: the summary depends on the messages alone. */
  lemma StyleIndependentOfPlayer(generate: Generator, id1: string, id2: string, messages: seq<string>)
    ensures SummarizePlayerStyle(generate, id1, messages) == SummarizePlayerStyle(generate, id2, messages)
  {
  }

  /** With no messages the model is not consulted: any two generators give the same result. */
  lemma EmptyHistoryIgnoresGenerator(g1: Generator, g2: Generator, playerId: string)
    ensures SummarizePlayerStyle(g1, playerId, []) == SummarizePlayerStyle(g2, playerId, [])
  {
  }
}
