// The Poe client wrapper: the API-key guard, the static model tables, and
// `query_model` / `query_model_with_file` with their message append, their
// streaming accumulation loop, the Claude-compatibility rules for a stream
// that fails part-way, and the wrapping of errors.
//
// The bot's reply stream is a parameter: given the message list it is sent,
// it yields the texts of the partial responses and then, possibly, an
// exception. The hooks of the unseen Claude-compatibility module
// (`is_claude_model`, `process_claude_response`, `handle_claude_error`) are
// parameters as well, and so are what the file system says about an
// attachment.
module PoeApi {
  import opened Wrappers
  import Text
  import OsPath

  /** The exceptions the client raises, each with its message (`str(e)`). */
  datatype Error =
    | AuthenticationError(message: string)
    | PoeApiError(message: string)
    | FileHandlingError(message: string)
    | ValueError(message: string)

  const MissingKeyMessage := "Poe API key is required. Get your API key from https://poe.com/api_key"

  datatype ClientConfig = ClientConfig(apiKey: string, debugMode: bool, claudeCompatible: bool)

  /** The constructor: an empty key is refused. */
  function NewClient(apiKey: string, debugMode: bool, claudeCompatible: bool): (r: Result<ClientConfig, Error>)
    ensures r.Failure? <==> apiKey == ""
    ensures r.Failure? ==> r.error == AuthenticationError(MissingKeyMessage)
    ensures r.Success? ==> r.value.apiKey == apiKey && r.value.claudeCompatible == claudeCompatible
  {
    if apiKey == "" then Failure(AuthenticationError(MissingKeyMessage))
    else Success(ClientConfig(apiKey, debugMode, claudeCompatible))
  }

  // ---- the model tables ----

  /** `get_available_models` */
  const AvailableModels: seq<string> := [
    "GPT-3.5-Turbo", "GPT-4", "GPT-4o", "Claude-3-Opus-200k", "Claude-3-Sonnet-7k",
    "Claude-3-Haiku-3k", "Claude-2-100k", "Gemini-Pro", "Llama-3-70b", "Llama-3-8b",
    "Mistral-7B", "Mistral-Large", "Perplexity-Online"]

  datatype ModelInfo = ModelInfo(description: string, contextLength: nat, supportsImages: bool)

  /** The dictionary inside `get_model_info`, in its insertion order. */
  const ModelTable: seq<(string, ModelInfo)> := [
    ("GPT-3.5-Turbo", ModelInfo("OpenAI's GPT-3.5 Turbo model", 16000, true)),
    ("GPT-4", ModelInfo("OpenAI's GPT-4 model", 32000, true)),
    ("GPT-4o", ModelInfo("OpenAI's GPT-4o model", 128000, true)),
    ("Claude-3-Opus-200k", ModelInfo("Anthropic's Claude 3 Opus model with 200k context", 200000, true)),
    ("Claude-3-Sonnet-7k", ModelInfo("Anthropic's Claude 3 Sonnet model with 7k context", 7000, true)),
    ("Claude-3-Haiku-3k", ModelInfo("Anthropic's Claude 3 Haiku model with 3k context", 3000, true)),
    ("Claude-2-100k", ModelInfo("Anthropic's Claude 2 model with 100k context", 100000, false)),
    ("Gemini-Pro", ModelInfo("Google's Gemini Pro model", 32000, true)),
    ("Llama-3-70b", ModelInfo("Meta's Llama 3 70B model", 8000, false)),
    ("Llama-3-8b", ModelInfo("Meta's Llama 3 8B model", 8000, false)),
    ("Mistral-7B", ModelInfo("Mistral AI's 7B model", 8000, false)),
    ("Mistral-Large", ModelInfo("Mistral AI's Large model", 32000, true)),
    ("Perplexity-Online", ModelInfo("Perplexity's online search-augmented model", 8000, false))]

  /** The keys of a table, in order. */
  function Names(table: seq<(string, ModelInfo)>): (names: seq<string>)
    ensures |names| == |table|
    ensures forall k :: 0 <= k < |table| ==> names[k] == table[k].0
  {
    if table == [] then [] else [table[0].0] + Names(table[1..])
  }

  /** The dictionary's lookup: the first entry for the key. */
  function Lookup(table: seq<(string, ModelInfo)>, name: string): (r: Option<ModelInfo>)
    ensures r.Some? <==> name in Names(table)
    ensures r.Some? ==> (name, r.value) in table
  {
    if table == [] then None
    else if table[0].0 == name then Some(table[0].1)
    else Lookup(table[1..], name)
  }

  /** `get_model_info`: the table's entry, or a `ValueError` for a name it does not hold. */
  function GetModelInfo(name: string): (r: Result<ModelInfo, Error>)
    ensures r.Failure? <==> name !in Names(ModelTable)
    ensures r.Failure? ==> r.error == ValueError("Unknown model: " + name)
    ensures r.Success? ==> (name, r.value) in ModelTable
  {
    match Lookup(ModelTable, name)
    case Some(info) => Success(info)
    case None => Failure(ValueError("Unknown model: " + name))
  }

  /** The first seven keys of the table, against the list. */
  lemma KeysAgreeLow()
    ensures forall k :: 0 <= k < 7 ==> ModelTable[k].0 == AvailableModels[k]
  {
    assert ModelTable[0].0 == AvailableModels[0];
    assert ModelTable[1].0 == AvailableModels[1];
    assert ModelTable[2].0 == AvailableModels[2];
    assert ModelTable[3].0 == AvailableModels[3];
    assert ModelTable[4].0 == AvailableModels[4];
    assert ModelTable[5].0 == AvailableModels[5];
    assert ModelTable[6].0 == AvailableModels[6];
  }

  /** The last six keys of the table, against the list. */
  lemma KeysAgreeHigh()
    ensures forall k :: 7 <= k < 13 ==> ModelTable[k].0 == AvailableModels[k]
  {
    assert ModelTable[7].0 == AvailableModels[7];
    assert ModelTable[8].0 == AvailableModels[8];
    assert ModelTable[9].0 == AvailableModels[9];
    assert ModelTable[10].0 == AvailableModels[10];
    assert ModelTable[11].0 == AvailableModels[11];
    assert ModelTable[12].0 == AvailableModels[12];
  }

  /** The two lists name the same models in the same order. */
  lemma NamesAgree()
    ensures Names(ModelTable) == AvailableModels
  {
    KeysAgreeLow();
    KeysAgreeHigh();
    NamesOfKeys(ModelTable, AvailableModels);
  }

  lemma NamesOfKeys(table: seq<(string, ModelInfo)>, names: seq<string>)
    requires |table| == |names|
    requires forall k :: 0 <= k < |table| ==> table[k].0 == names[k]
    ensures Names(table) == names
  {
  }

  /** Every available model has an entry, and the table holds no other name. */
  lemma AvailableModelsHaveInfo(name: string)
    ensures name in AvailableModels <==> GetModelInfo(name).Success?
  {
    NamesAgree();
  }

  /** An entry is found when no earlier entry has its name. */
  lemma {:induction false} LookupAt(table: seq<(string, ModelInfo)>, k: nat)
    requires k < |table|
    requires forall j :: 0 <= j < k ==> table[j].0 != table[k].0
    ensures Lookup(table, table[k].0) == Some(table[k].1)
  {
    if k > 0 {
      LookupAt(table[1..], k - 1);
    }
  }

  /** The one model listed without image support among the Claude models. */
  lemma Claude2Info()
    ensures GetModelInfo("Claude-2-100k") == Success(ModelInfo("Anthropic's Claude 2 model with 100k context", 100000, false))
  {
    var t := ModelTable;
    assert t[6].0 == "Claude-2-100k";
    assert forall j :: 0 <= j < 6 ==> t[j].0 != "Claude-2-100k";
    LookupAt(t, 6);
  }

  // ---- query_model ----

  datatype ProtocolMessage = ProtocolMessage(role: string, content: string)

  function UserMessage(content: string): ProtocolMessage
  {
    ProtocolMessage("user", content)
  }

  /** The caller's `messages` list, appended to in place. */
  class MessageList {
    var items: seq<ProtocolMessage>

    constructor (items: seq<ProtocolMessage>)
      ensures this.items == items
    {
      this.items := items;
    }
  }

  /** What `get_bot_response` yields: the texts of its partial responses, then possibly an exception's message. */
  datatype BotStream = BotStream(chunks: seq<string>, failure: Option<string>)

  /** What `handle_claude_error` makes of an exception. */
  datatype ErrorInfo = ErrorInfo(error: string, message: string)

  /** The unseen Claude-compatibility module's three hooks. */
  datatype ClaudeHooks = ClaudeHooks(
    isClaudeModel: string -> bool,
    process: string -> string,
    handleError: string -> ErrorInfo)

  /** The returned dictionary; `error` holds the "error" and "error_message" fields when present. */
  datatype Reply = Reply(text: string, bot: string, error: Option<ErrorInfo>)

  /** Each chunk as it is added to the response and passed to the stream handler. */
  function Processed(chunks: seq<string>, compat: bool, process: string -> string): seq<string>
  {
    seq(|chunks|, i requires 0 <= i < |chunks| => if compat then process(chunks[i]) else chunks[i])
  }

  /**
   * The inner `try` of a query: the reply, or the message of the exception
   * that leaves it. In compatibility mode a failure after some text returns
   * that text with the error, and a failure before any raises a
   * `PoeApiError` with the handled message; otherwise the exception
   * propagates as it is. A complete reply is processed once more as a whole.
   */
  function Answer(botName: string, compat: bool, hooks: ClaudeHooks, stream: BotStream): Result<Reply, string>
  {
    var full := Text.Concat(Processed(stream.chunks, compat, hooks.process));
    match stream.failure
    case None => Success(Reply(if compat then hooks.process(full) else full, botName, None))
    case Some(e) =>
      if !compat then Failure(e)
      else
        var info := hooks.handleError(e);
        if full != "" then Success(Reply(full, botName, Some(info)))
        else Failure(info.message)
  }

  /** `query_model`, given the history the caller passes (`[]` for None). */
  function Query(client: ClientConfig, botName: string, prompt: string, history: seq<ProtocolMessage>,
                 bot: seq<ProtocolMessage> -> BotStream, hooks: ClaudeHooks): Result<Reply, Error>
  {
    var compat := hooks.isClaudeModel(botName) && client.claudeCompatible;
    match Answer(botName, compat, hooks, bot(history + [UserMessage(prompt)]))
    case Success(reply) => Success(reply)
    case Failure(message) => Failure(PoeApiError("Error querying Poe model: " + message))
  }

  /** The streaming loop: the response so far is the concatenation of the chunks handed on. */
  method Collect(chunks: seq<string>, compat: bool, process: string -> string) returns (full: string, sent: seq<string>)
    ensures sent == Processed(chunks, compat, process)
    ensures full == Text.Concat(sent)
  {
    full := "";
    sent := [];
    var i := 0;
    while i < |chunks|
      invariant 0 <= i <= |chunks|
      invariant sent == Processed(chunks[..i], compat, process)
      invariant full == Text.Concat(sent)
    {
      var chunkText := chunks[i];
      if compat {
        chunkText := process(chunkText);
      }
      Text.ConcatAppend(sent, chunkText);
      full := full + chunkText;
      sent := sent + [chunkText];
      assert Processed(chunks[..i + 1], compat, process) == Processed(chunks[..i], compat, process) + [chunkText];
      i := i + 1;
    }
    assert chunks[..i] == chunks;
  }

  /** The reply and the exception that leaves the streaming `try`, from the loop's results. */
  function Settle(botName: string, compat: bool, hooks: ClaudeHooks, full: string, failure: Option<string>): Result<Reply, string>
  {
    match failure
    case None => Success(Reply(if compat then hooks.process(full) else full, botName, None))
    case Some(e) =>
      if !compat then Failure(e)
      else if full != "" then Success(Reply(full, botName, Some(hooks.handleError(e))))
      else Failure(hooks.handleError(e).message)
  }

  /**
   * `query_model`: the prompt is appended to the caller's list (a fresh one
   * when None is passed) before the bot is called, and stays there whatever
   * happens next; `handled` is what a stream handler receives.
   */
  method QueryModel(client: ClientConfig, botName: string, prompt: string, messages: MessageList?, hasHandler: bool,
                    bot: seq<ProtocolMessage> -> BotStream, hooks: ClaudeHooks)
    returns (r: Result<Reply, Error>, handled: seq<string>)
    modifies messages
    ensures messages != null ==> messages.items == old(messages.items) + [UserMessage(prompt)]
    ensures r == Query(client, botName, prompt, if messages == null then [] else old(messages.items), bot, hooks)
    ensures var compat := hooks.isClaudeModel(botName) && client.claudeCompatible;
      var history := if messages == null then [] else old(messages.items);
      handled == if hasHandler then Processed(bot(history + [UserMessage(prompt)]).chunks, compat, hooks.process) else []
  {
    var list := messages;
    if list == null {
      list := new MessageList([]);
    }
    list.items := list.items + [UserMessage(prompt)];
    var compat := hooks.isClaudeModel(botName) && client.claudeCompatible;
    var stream := bot(list.items);
    var full, sent := Collect(stream.chunks, compat, hooks.process);
    handled := if hasHandler then sent else [];
    var inner := Settle(botName, compat, hooks, full, stream.failure);
    r := match inner
      case Success(reply) => Success(reply)
      case Failure(message) => Failure(PoeApiError("Error querying Poe model: " + message));
  }

  /**
   * The rules for a stream that fails: in compatibility mode the text
   * gathered so far comes back with the handled error when there is any, and
   * otherwise the query fails; outside it the failure is reported with the
   * original message. Every failure is one `PoeApiError` prefixed
   * "Error querying Poe model: ". A stream that ends normally returns its
   * text with no error fields.
   */
  lemma PartialResponseRules(client: ClientConfig, botName: string, prompt: string, history: seq<ProtocolMessage>,
                             bot: seq<ProtocolMessage> -> BotStream, hooks: ClaudeHooks)
    ensures var stream := bot(history + [UserMessage(prompt)]);
      var compat := hooks.isClaudeModel(botName) && client.claudeCompatible;
      var full := Text.Concat(Processed(stream.chunks, compat, hooks.process));
      var r := Query(client, botName, prompt, history, bot, hooks);
      && (stream.failure.Some? && compat && full != "" ==>
            r == Success(Reply(full, botName, Some(hooks.handleError(stream.failure.value)))))
      && (stream.failure.Some? && compat && full == "" ==>
            r == Failure(PoeApiError("Error querying Poe model: " + hooks.handleError(stream.failure.value).message)))
      && (stream.failure.Some? && !compat ==>
            r == Failure(PoeApiError("Error querying Poe model: " + stream.failure.value)))
      && (stream.failure.None? ==> r.Success? && r.value.error.None? && r.value.bot == botName)
      && (r.Failure? ==> r.error.PoeApiError? && "Error querying Poe model: " <= r.error.message)
      && (r.Success? && r.value.error.Some? ==> compat && stream.failure.Some? && r.value.text != "")
  {
  }

  /** Outside compatibility mode a complete reply is exactly the chunks joined in arrival order. */
  lemma PlainReplyIsConcatenation(client: ClientConfig, botName: string, prompt: string, history: seq<ProtocolMessage>,
                                  bot: seq<ProtocolMessage> -> BotStream, hooks: ClaudeHooks)
    requires !(hooks.isClaudeModel(botName) && client.claudeCompatible)
    requires bot(history + [UserMessage(prompt)]).failure.None?
    ensures Query(client, botName, prompt, history, bot, hooks)
      == Success(Reply(Text.Concat(bot(history + [UserMessage(prompt)]).chunks), botName, None))
  {
    var chunks := bot(history + [UserMessage(prompt)]).chunks;
    assert Processed(chunks, false, hooks.process) == chunks;
  }

  // ---- query_model_with_file ----

  /**
   * What the file system gives for the attachment: whether the path exists,
   * and then either the error from opening or reading it, or its contents
   * decoded as UTF-8 (None when they do not decode).
   */
  datatype Attachment = Attachment(present: bool, read: Result<Option<string>, string>)

  /** The prompt sent with a file: its text when it decodes, else a note naming it. */
  function FilePrompt(prompt: string, path: string, decoded: Option<string>): string
  {
    match decoded
    case Some(fileText) => prompt + "\n\nFile content:\n" + fileText
    case None => prompt + "\n\n[File attached: " + OsPath.BaseName(path) + "]"
  }

  /** `query_model_with_file`, given the history the caller passes (`[]` for None). */
  function QueryWithFile(client: ClientConfig, botName: string, prompt: string, path: string, file: Attachment,
                         history: seq<ProtocolMessage>, bot: seq<ProtocolMessage> -> BotStream,
                         hooks: ClaudeHooks): Result<Reply, Error>
  {
    if !file.present then Failure(FileHandlingError("File not found: " + path))
    else
      match file.read
      case Failure(e) => Failure(PoeApiError("Error querying Poe model with file: " + e))
      case Success(decoded) =>
        var compat := hooks.isClaudeModel(botName) && client.claudeCompatible;
        match Answer(botName, compat, hooks, bot(history + [UserMessage(FilePrompt(prompt, path, decoded))]))
        case Success(reply) => Success(reply)
        case Failure(message) => Failure(PoeApiError("Error querying Poe model with file: " + message))
  }

  /**
   * `query_model_with_file`: the caller's list gains the combined prompt only
   * once the file has been found and read.
   */
  method QueryModelWithFile(client: ClientConfig, botName: string, prompt: string, path: string, file: Attachment,
                            messages: MessageList?, bot: seq<ProtocolMessage> -> BotStream, hooks: ClaudeHooks)
    returns (r: Result<Reply, Error>)
    modifies messages
    ensures messages != null && file.present && file.read.Success? ==>
      messages.items == old(messages.items) + [UserMessage(FilePrompt(prompt, path, file.read.value))]
    ensures messages != null && !(file.present && file.read.Success?) ==> messages.items == old(messages.items)
    ensures r == QueryWithFile(client, botName, prompt, path, file, if messages == null then [] else old(messages.items), bot, hooks)
  {
    if !file.present {
      return Failure(FileHandlingError("File not found: " + path));
    }
    var list := messages;
    if list == null {
      list := new MessageList([]);
    }
    if file.read.Failure? {
      return Failure(PoeApiError("Error querying Poe model with file: " + file.read.error));
    }
    var combined := FilePrompt(prompt, path, file.read.value);
    var compat := hooks.isClaudeModel(botName) && client.claudeCompatible;
    list.items := list.items + [UserMessage(combined)];
    var stream := bot(list.items);
    var full, sent := Collect(stream.chunks, compat, hooks.process);
    var inner := Settle(botName, compat, hooks, full, stream.failure);
    r := match inner
      case Success(reply) => Success(reply)
      case Failure(message) => Failure(PoeApiError("Error querying Poe model with file: " + message));
  }

  /**
   * A missing attachment is the one `FileHandlingError`, and it passes
   * through unwrapped; every other failure is a `PoeApiError` prefixed
   * "Error querying Poe model with file: ". A file that does not decode is
   * still sent, as a note with its base name.
   */
  lemma FileErrorsPropagate(client: ClientConfig, botName: string, prompt: string, path: string, file: Attachment,
                            history: seq<ProtocolMessage>, bot: seq<ProtocolMessage> -> BotStream, hooks: ClaudeHooks)
    ensures var r := QueryWithFile(client, botName, prompt, path, file, history, bot, hooks);
      && (!file.present ==> r == Failure(FileHandlingError("File not found: " + path)))
      && (r.Failure? && r.error.FileHandlingError? ==> !file.present)
      && (r.Failure? && file.present ==>
            r.error.PoeApiError? && "Error querying Poe model with file: " <= r.error.message)
      && (file.present && file.read.Failure? ==>
            r == Failure(PoeApiError("Error querying Poe model with file: " + file.read.error)))
    ensures FilePrompt(prompt, path, None) == prompt + "\n\n[File attached: " + OsPath.BaseName(path) + "]"
  {
  }
}
