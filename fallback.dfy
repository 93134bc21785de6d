/**
 * Speech-to-text and text generation with automatic fallback from a cloud
 * provider (Groq) to a local one (faster-whisper, Ollama).
 *
 * The provider SDKs are foreign code: each backend is a function parameter
 * that yields what the SDK call returns or raises. Elapsed times are given
 * by the caller. The invocation trace of a call records which strategies ran,
 * in order, so that "the remote strategy was never invoked" and "the local
 * strategy was invoked exactly once" can be stated.
 */
module Fallback {
  import opened Wrappers
  import Text

  /**
   * A raised Python exception. `Error` is a subclass of `Exception`, which the
   * fallback catches; `Interrupt` derives from `BaseException` only (task
   * cancellation, keyboard interrupt), which `except Exception` lets through.
   */
  datatype Failure = Error(message: string) | Interrupt(message: string)

  /** Whether `except Exception` catches the failure. */
  predicate Caught(f: Failure)
  {
    f.Error?
  }

  type Outcome<T> = Result<T, Failure>

  type Audio = seq<bv8>

  datatype TranscriptionResult = TranscriptionResult(text: string, latencyMs: real, provider: string, confidence: Option<real>)

  datatype GenerationResult = GenerationResult(text: string, latencyMs: real, provider: string, tokensUsed: Option<int>)

  const GroqProvider: string := "groq"
  const LocalWhisperProvider: string := "local-whisper"
  const OllamaProvider: string := "ollama"

  /** The default token budget of `generate`. */
  const DefaultMaxTokens: int := 150

  /** Python truthiness of an optional string: present and non-empty. */
  predicate Truthy(s: Option<string>)
  {
    s.Some? && s.value != ""
  }

  /** Wall-clock milliseconds each strategy would take if it ran. */
  datatype Timing = Timing(remoteMs: real, localMs: real)

  datatype Strategy = Remote | Local

  /** The outcome a call reports, and the strategies it invoked, in order. */
  datatype Served<T> = Served(outcome: Outcome<T>, invoked: seq<Strategy>)

  /**
   * The selection policy shared by `transcribe` and `generate`: skip the remote
   * attempt when forced local or without a credential; otherwise try remote and
   * fall back to local on any `Exception`. Local failures are not caught.
   */
  function Select<T>(useLocal: bool, apiKey: Option<string>, remote: Outcome<T>, local: Outcome<T>): (s: Served<T>)
    ensures Remote in s.invoked <==> !useLocal && Truthy(apiKey)
    ensures Local in s.invoked <==> useLocal || !Truthy(apiKey) || (remote.Err? && Caught(remote.error))
    ensures s.invoked == [Remote] || s.invoked == [Local] || s.invoked == [Remote, Local]
    ensures s.outcome == if Local in s.invoked then local else remote
  {
    if !useLocal && Truthy(apiKey) then
      if remote.Ok? || !Caught(remote.error) then Served(remote, [Remote])
      else Served(local, [Remote, Local])
    else
      Served(local, [Local])
  }

  /** The strategy whose outcome the call reports: the last one invoked. */
  function ServedBy<T>(s: Served<T>): Strategy
    requires s.invoked != []
  {
    s.invoked[|s.invoked| - 1]
  }

  /** A successful remote attempt is returned as it is and the local strategy never runs. */
  lemma RemoteSuccessIsFinal<T>(useLocal: bool, apiKey: Option<string>, remote: Outcome<T>, local: Outcome<T>)
    requires !useLocal && Truthy(apiKey) && remote.Ok?
    ensures Select(useLocal, apiKey, remote, local) == Served(remote, [Remote])
  {
  }

  /** Any `Exception` from the remote attempt runs the local strategy once, whose outcome, failure included, is reported. */
  lemma RemoteErrorFallsBack<T>(useLocal: bool, apiKey: Option<string>, remote: Outcome<T>, local: Outcome<T>)
    requires !useLocal && Truthy(apiKey) && remote.Err? && Caught(remote.error)
    ensures Select(useLocal, apiKey, remote, local) == Served(local, [Remote, Local])
  {
  }

  /** Forced local or no credential: the remote strategy is never invoked. */
  lemma SkipRemote<T>(useLocal: bool, apiKey: Option<string>, remote: Outcome<T>, local: Outcome<T>)
    requires useLocal || !Truthy(apiKey)
    ensures Select(useLocal, apiKey, remote, local) == Served(local, [Local])
  {
  }

  // ---------------------------------------------------------------------------
  // Clients and models built lazily

  /** A Groq SDK client, built from the configured key. */
  datatype GroqClient = GroqClient(apiKey: Option<string>)

  /** A faster-whisper model handle. */
  datatype WhisperModel = WhisperModel(size: string, device: string, computeType: string)

  /** The local model `_get_local_model` loads. */
  const LocalWhisperModel: WhisperModel := WhisperModel("base.en", "cpu", "int8")

  /** The client a call uses: the cached one, or a new one built from the key. */
  function ClientFor(cached: Option<GroqClient>, apiKey: Option<string>): GroqClient
  {
    if cached.Some? then cached.value else GroqClient(apiKey)
  }

  // ---------------------------------------------------------------------------
  // Speech to text

  /** `_transcribe_groq`'s result from the text the SDK returned. */
  function GroqTranscription(sdk: Outcome<string>, latencyMs: real): (r: Outcome<TranscriptionResult>)
    ensures r.Ok? <==> sdk.Ok?
    ensures r.Ok? ==> r.value == TranscriptionResult(sdk.value, latencyMs, GroqProvider, None)
    ensures r.Err? ==> r.error == sdk.error
  {
    match sdk
    case Ok(text) => Ok(TranscriptionResult(text, latencyMs, GroqProvider, None))
    case Err(f) => Err(f)
  }

  /** `_transcribe_local`'s result from the segment texts: joined with spaces, then stripped. */
  function LocalTranscription(segments: Outcome<seq<string>>, latencyMs: real): (r: Outcome<TranscriptionResult>)
    ensures r.Ok? <==> segments.Ok?
    ensures r.Ok? ==> && r.value.provider == LocalWhisperProvider && r.value.latencyMs == latencyMs
                      && r.value.confidence == None && Text.Trimmed(r.value.text)
    ensures r.Ok? ==>
      ((forall i :: 0 <= i < |segments.value| ==> segments.value[i] != [] && Text.Trimmed(segments.value[i]))
         ==> r.value.text == Text.JoinWithSpace(segments.value))
    ensures r.Err? ==> r.error == segments.error
  {
    match segments
    case Ok(texts) =>
      Text.StripJoinOfTrimmed(texts);
      Ok(TranscriptionResult(Text.Strip(Text.JoinWithSpace(texts)), latencyMs, LocalWhisperProvider, None))
    case Err(f) => Err(f)
  }

  /** What `transcribe` reports, given what each backend returns or raises. */
  function Transcription(audio: Audio, useLocal: bool, apiKey: Option<string>, client: GroqClient,
                         remote: (GroqClient, Audio) -> Outcome<string>,
                         local: (WhisperModel, Audio) -> Outcome<seq<string>>,
                         timing: Timing): Served<TranscriptionResult>
  {
    Select(useLocal, apiKey,
           GroqTranscription(remote(client, audio), timing.remoteMs),
           LocalTranscription(local(LocalWhisperModel, audio), timing.localMs))
  }

  /**
   * The provider tag names the strategy that served the call; a remote result carries
   * the SDK's text, a local one the stripped join of the segments; both carry only
   * their own strategy's latency, and neither sets a confidence.
   */
  lemma TranscriptionProvenance(audio: Audio, useLocal: bool, apiKey: Option<string>, client: GroqClient,
                                remote: (GroqClient, Audio) -> Outcome<string>,
                                local: (WhisperModel, Audio) -> Outcome<seq<string>>,
                                timing: Timing)
    ensures var s := Transcription(audio, useLocal, apiKey, client, remote, local, timing);
      && s.invoked != []
      && (s.outcome.Ok? ==>
            && (s.outcome.value.provider == GroqProvider <==> ServedBy(s) == Remote)
            && (s.outcome.value.provider == LocalWhisperProvider <==> ServedBy(s) == Local)
            && s.outcome.value.confidence == None
            && (ServedBy(s) == Remote ==>
                  s.outcome.value.text == remote(client, audio).value && s.outcome.value.latencyMs == timing.remoteMs)
            && (ServedBy(s) == Local ==>
                  && s.outcome.value.text == Text.Strip(Text.JoinWithSpace(local(LocalWhisperModel, audio).value))
                  && s.outcome.value.latencyMs == timing.localMs))
      && (s.outcome.Err? && ServedBy(s) == Local ==> s.outcome.error == local(LocalWhisperModel, audio).error)
      && (s.outcome.Err? && ServedBy(s) == Remote ==> s.outcome.error == remote(client, audio).error && !Caught(s.outcome.error))
  {
    var s := Transcription(audio, useLocal, apiKey, client, remote, local, timing);
    if ServedBy(s) == Remote {
      assert s.outcome == GroqTranscription(remote(client, audio), timing.remoteMs);
    } else {
      assert s.outcome == LocalTranscription(local(LocalWhisperModel, audio), timing.localMs);
    }
  }

  class FallbackSTT {
    var groqClient: Option<GroqClient>
    var localModel: Option<WhisperModel>
    /** How many times a Groq client has been built by this instance. */
    ghost var clientBuilds: nat
    /** How many times the local model has been loaded by this instance. */
    ghost var modelBuilds: nat

    /** Each resource is built at most once, and exactly when it is cached. */
    ghost predicate Valid()
      reads this
    {
      && clientBuilds == (if groqClient.Some? then 1 else 0)
      && modelBuilds == (if localModel.Some? then 1 else 0)
      && (localModel.Some? ==> localModel.value == LocalWhisperModel)
    }

    constructor ()
      ensures Valid()
      ensures groqClient == None && localModel == None
    {
      groqClient := None;
      localModel := None;
      clientBuilds := 0;
      modelBuilds := 0;
    }

    /** `_get_groq_client`: builds the client on first use, then reuses it. */
    method GetGroqClient(apiKey: Option<string>) returns (c: GroqClient)
      requires Valid()
      modifies this
      ensures Valid()
      ensures c == ClientFor(old(groqClient), apiKey) && groqClient == Some(c)
      ensures localModel == old(localModel)
    {
      if groqClient.None? {
        groqClient := Some(GroqClient(apiKey));
        clientBuilds := clientBuilds + 1;
      }
      c := groqClient.value;
    }

    /** `_get_local_model`: loads the model on first use, then reuses it. */
    method GetLocalModel() returns (m: WhisperModel)
      requires Valid()
      modifies this
      ensures Valid()
      ensures m == LocalWhisperModel && localModel == Some(m)
      ensures groqClient == old(groqClient)
    {
      if localModel.None? {
        localModel := Some(LocalWhisperModel);
        modelBuilds := modelBuilds + 1;
      }
      m := localModel.value;
    }

    /** `_transcribe_groq`. */
    method TranscribeGroq(audio: Audio, apiKey: Option<string>,
                          remote: (GroqClient, Audio) -> Outcome<string>, latencyMs: real)
      returns (r: Outcome<TranscriptionResult>)
      requires Valid()
      modifies this
      ensures Valid()
      ensures r == GroqTranscription(remote(ClientFor(old(groqClient), apiKey), audio), latencyMs)
      ensures groqClient == Some(ClientFor(old(groqClient), apiKey)) && localModel == old(localModel)
    {
      var client := GetGroqClient(apiKey);
      r := GroqTranscription(remote(client, audio), latencyMs);
    }

    /** `_transcribe_local` (the temporary file is not modelled). */
    method TranscribeLocal(audio: Audio, local: (WhisperModel, Audio) -> Outcome<seq<string>>, latencyMs: real)
      returns (r: Outcome<TranscriptionResult>)
      requires Valid()
      modifies this
      ensures Valid()
      ensures r == LocalTranscription(local(LocalWhisperModel, audio), latencyMs)
      ensures localModel == Some(LocalWhisperModel) && groqClient == old(groqClient)
    {
      var model := GetLocalModel();
      r := LocalTranscription(local(model, audio), latencyMs);
    }

    /**
     * `transcribe`: reports what `Transcription` says, and has built exactly
     * the resources of the strategies it invoked (each at most once).
     */
    method Transcribe(audio: Audio, apiKey: Option<string>,
                      remote: (GroqClient, Audio) -> Outcome<string>,
                      local: (WhisperModel, Audio) -> Outcome<seq<string>>,
                      timing: Timing,
                      useLocal: bool := false)
      returns (r: Outcome<TranscriptionResult>)
      requires Valid()
      modifies this
      ensures Valid()
      ensures r == Transcription(audio, useLocal, apiKey, ClientFor(old(groqClient), apiKey), remote, local, timing).outcome
      ensures groqClient == if Remote in Transcription(audio, useLocal, apiKey, ClientFor(old(groqClient), apiKey), remote, local, timing).invoked
                            then Some(ClientFor(old(groqClient), apiKey)) else old(groqClient)
      ensures localModel == if Local in Transcription(audio, useLocal, apiKey, ClientFor(old(groqClient), apiKey), remote, local, timing).invoked
                            then Some(LocalWhisperModel) else old(localModel)
    {
      if !useLocal && Truthy(apiKey) {
        r := TranscribeGroq(audio, apiKey, remote, timing.remoteMs);
        if r.Ok? || !Caught(r.error) {
          return;
        }
      }
      r := TranscribeLocal(audio, local, timing.localMs);
    }
  }

  // ---------------------------------------------------------------------------
  // Text generation

  /** A chat message with its role (`system` or `user`). */
  datatype Message = Message(role: string, content: string)

  /** The message list every generation path sends: a system message only when one is given, then the prompt. */
  function Messages(prompt: string, system: Option<string>): (m: seq<Message>)
    ensures |m| == if Truthy(system) then 2 else 1
    ensures m[|m| - 1] == Message("user", prompt)
    ensures Truthy(system) ==> m[0] == Message("system", system.value)
    ensures forall i :: 0 <= i < |m| - 1 ==> m[i].role == "system"
  {
    (if Truthy(system) then [Message("system", system.value)] else []) + [Message("user", prompt)]
  }

  /** The message list built by successive appends, as each generation path does. */
  method BuildMessages(prompt: string, system: Option<string>) returns (messages: seq<Message>)
    ensures messages == Messages(prompt, system)
  {
    messages := [];
    if Truthy(system) {
      messages := messages + [Message("system", system.value)];
    }
    messages := messages + [Message("user", prompt)];
  }

  /** A chat completion: the content of each choice's message, and the total token usage when reported. */
  datatype ChatCompletion = ChatCompletion(choices: seq<string>, totalTokens: Option<int>)

  /** `_generate_groq`'s result; an empty choice list raises `IndexError`, an `Exception`. */
  function GroqGeneration(sdk: Outcome<ChatCompletion>, latencyMs: real): (r: Outcome<GenerationResult>)
    ensures r.Ok? <==> sdk.Ok? && sdk.value.choices != []
    ensures r.Ok? ==> r.value == GenerationResult(sdk.value.choices[0], latencyMs, GroqProvider, sdk.value.totalTokens)
    ensures sdk.Ok? && sdk.value.choices == [] ==> r.Err? && Caught(r.error)
    ensures sdk.Err? ==> r == Err(sdk.error)
  {
    match sdk
    case Ok(response) =>
      if response.choices == [] then Err(Error("list index out of range"))
      else Ok(GenerationResult(response.choices[0], latencyMs, GroqProvider, response.totalTokens))
    case Err(f) => Err(f)
  }

  /** `_generate_ollama`'s result from the reply content; no token count. */
  function OllamaGeneration(sdk: Outcome<string>, latencyMs: real): (r: Outcome<GenerationResult>)
    ensures r.Ok? <==> sdk.Ok?
    ensures r.Ok? ==> r.value == GenerationResult(sdk.value, latencyMs, OllamaProvider, None)
    ensures r.Err? ==> r.error == sdk.error
  {
    match sdk
    case Ok(content) => Ok(GenerationResult(content, latencyMs, OllamaProvider, None))
    case Err(f) => Err(f)
  }

  /** What `generate` reports, given what each backend returns or raises for the built messages. */
  function Generation(prompt: string, system: Option<string>, useLocal: bool, maxTokens: int,
                      apiKey: Option<string>, client: GroqClient,
                      remote: (GroqClient, seq<Message>, int) -> Outcome<ChatCompletion>,
                      local: (seq<Message>, int) -> Outcome<string>,
                      timing: Timing): Served<GenerationResult>
  {
    var messages := Messages(prompt, system);
    Select(useLocal, apiKey,
           GroqGeneration(remote(client, messages, maxTokens), timing.remoteMs),
           OllamaGeneration(local(messages, maxTokens), timing.localMs))
  }

  /**
   * The provider tag names the strategy that served the call; only a remote result
   * can carry a token count, and it is the one the SDK reported.
   */
  lemma GenerationProvenance(prompt: string, system: Option<string>, useLocal: bool, maxTokens: int,
                             apiKey: Option<string>, client: GroqClient,
                             remote: (GroqClient, seq<Message>, int) -> Outcome<ChatCompletion>,
                             local: (seq<Message>, int) -> Outcome<string>,
                             timing: Timing)
    ensures var s := Generation(prompt, system, useLocal, maxTokens, apiKey, client, remote, local, timing);
      var messages := Messages(prompt, system);
      && s.invoked != []
      && (s.outcome.Ok? ==>
            && (s.outcome.value.provider == GroqProvider <==> ServedBy(s) == Remote)
            && (s.outcome.value.provider == OllamaProvider <==> ServedBy(s) == Local)
            && (ServedBy(s) == Remote ==>
                  && remote(client, messages, maxTokens).Ok?
                  && s.outcome.value.text == remote(client, messages, maxTokens).value.choices[0]
                  && s.outcome.value.tokensUsed == remote(client, messages, maxTokens).value.totalTokens
                  && s.outcome.value.latencyMs == timing.remoteMs)
            && (ServedBy(s) == Local ==>
                  && s.outcome.value.text == local(messages, maxTokens).value
                  && s.outcome.value.tokensUsed == None
                  && s.outcome.value.latencyMs == timing.localMs))
      && (s.outcome.Err? && ServedBy(s) == Local ==> s.outcome.error == local(messages, maxTokens).error)
      && (s.outcome.Err? && ServedBy(s) == Remote ==> s.outcome.error == remote(client, messages, maxTokens).error
                                                       && !Caught(s.outcome.error))
  {
    var s := Generation(prompt, system, useLocal, maxTokens, apiKey, client, remote, local, timing);
    var messages := Messages(prompt, system);
    if ServedBy(s) == Remote {
      assert s.outcome == GroqGeneration(remote(client, messages, maxTokens), timing.remoteMs);
    } else {
      assert s.outcome == OllamaGeneration(local(messages, maxTokens), timing.localMs);
    }
  }

  // ---------------------------------------------------------------------------
  // Streaming

  /** What a backend's chunk stream delivers: each chunk's content (possibly `None`), then how it ended. */
  datatype ChunkStream = ChunkStream(contents: seq<Option<string>>, end: Option<Failure>)

  /** What `stream` yields, how it ends, and which strategies it invoked. */
  datatype StreamRun = StreamRun(chunks: seq<string>, failure: Option<Failure>, invoked: seq<Strategy>)

  /** The contents a backend stream passes on: the non-empty ones, in order. */
  function NonEmptyChunks(raw: seq<Option<string>>): (out: seq<string>)
    ensures |out| <= |raw|
    ensures forall i :: 0 <= i < |out| ==> out[i] != "" && Some(out[i]) in raw
    ensures forall i :: 0 <= i < |raw| && Truthy(raw[i]) ==> raw[i].value in out
  {
    if raw == [] then []
    else
      var last := raw[|raw| - 1];
      NonEmptyChunks(raw[..|raw| - 1]) + (if Truthy(last) then [last.value] else [])
  }

  /** Filtering a stream piecewise is filtering it whole. */
  lemma {:induction false} NonEmptyChunksAppend(a: seq<Option<string>>, b: seq<Option<string>>)
    ensures NonEmptyChunks(a + b) == NonEmptyChunks(a) + NonEmptyChunks(b)
  {
    if b == [] {
      assert a + b == a;
    } else {
      var b' := b[..|b| - 1];
      assert (a + b)[..|a + b| - 1] == a + b';
      NonEmptyChunksAppend(a, b');
    }
  }

  /** How a stream ended, seen as the outcome of a call. */
  function Ending(cs: ChunkStream): Outcome<()>
  {
    if cs.end.None? then Ok(()) else Err(cs.end.value)
  }

  /**
   * What `stream` yields. It selects like `generate`, with the remote stream's ending
   * as the remote outcome: the chunks are those of every invoked strategy in order
   * (a remote stream that raises keeps what it already yielded), and the stream ends
   * as the last invoked strategy's stream ended.
   */
  function StreamOutput(useLocal: bool, apiKey: Option<string>, remote: ChunkStream, local: ChunkStream): (o: StreamRun)
    ensures o.invoked == Select(useLocal, apiKey, Ending(remote), Ending(local)).invoked
    ensures o.chunks == (if Remote in o.invoked then NonEmptyChunks(remote.contents) else [])
                        + (if Local in o.invoked then NonEmptyChunks(local.contents) else [])
    ensures o.failure == if Local in o.invoked then local.end else remote.end
  {
    if !useLocal && Truthy(apiKey) then
      var yielded := NonEmptyChunks(remote.contents);
      if remote.end.None? || !Caught(remote.end.value) then StreamRun(yielded, remote.end, [Remote])
      else StreamRun(yielded + NonEmptyChunks(local.contents), local.end, [Remote, Local])
    else
      StreamRun(NonEmptyChunks(local.contents), local.end, [Local])
  }

  /** The filtering loop of `_stream_groq` and `_stream_ollama`: passes on each non-empty content. */
  method RelayNonEmpty(raw: seq<Option<string>>) returns (out: seq<string>)
    ensures out == NonEmptyChunks(raw)
  {
    out := [];
    var i := 0;
    while i < |raw|
      invariant 0 <= i <= |raw|
      invariant out == NonEmptyChunks(raw[..i])
    {
      assert raw[..i + 1][..i] == raw[..i];
      if raw[i].Some? && raw[i].value != "" {
        out := out + [raw[i].value];
      }
      i := i + 1;
    }
    assert raw[..|raw|] == raw;
  }

  class FallbackLLM {
    var groqClient: Option<GroqClient>
    /** How many times a Groq client has been built by this instance. */
    ghost var clientBuilds: nat

    ghost predicate Valid()
      reads this
    {
      clientBuilds == if groqClient.Some? then 1 else 0
    }

    constructor ()
      ensures Valid() && groqClient == None
    {
      groqClient := None;
      clientBuilds := 0;
    }

    /** `_get_groq_client`: builds the client on first use, then reuses it. */
    method GetGroqClient(apiKey: Option<string>) returns (c: GroqClient)
      requires Valid()
      modifies this
      ensures Valid()
      ensures c == ClientFor(old(groqClient), apiKey) && groqClient == Some(c)
    {
      if groqClient.None? {
        groqClient := Some(GroqClient(apiKey));
        clientBuilds := clientBuilds + 1;
      }
      c := groqClient.value;
    }

    /** `_generate_groq`. */
    method GenerateGroq(prompt: string, system: Option<string>, maxTokens: int, apiKey: Option<string>,
                        remote: (GroqClient, seq<Message>, int) -> Outcome<ChatCompletion>, latencyMs: real)
      returns (r: Outcome<GenerationResult>)
      requires Valid()
      modifies this
      ensures Valid()
      ensures r == GroqGeneration(remote(ClientFor(old(groqClient), apiKey), Messages(prompt, system), maxTokens), latencyMs)
      ensures groqClient == Some(ClientFor(old(groqClient), apiKey))
    {
      var client := GetGroqClient(apiKey);
      var messages := BuildMessages(prompt, system);
      r := GroqGeneration(remote(client, messages, maxTokens), latencyMs);
    }

    /** `_generate_ollama`. */
    method GenerateOllama(prompt: string, system: Option<string>, maxTokens: int,
                          local: (seq<Message>, int) -> Outcome<string>, latencyMs: real)
      returns (r: Outcome<GenerationResult>)
      ensures r == OllamaGeneration(local(Messages(prompt, system), maxTokens), latencyMs)
    {
      var messages := BuildMessages(prompt, system);
      r := OllamaGeneration(local(messages, maxTokens), latencyMs);
    }

    /**
     * `generate`: reports what `Generation` says, and builds the Groq client
     * exactly when the remote strategy is invoked and none is cached.
     */
    method Generate(prompt: string, apiKey: Option<string>,
                    remote: (GroqClient, seq<Message>, int) -> Outcome<ChatCompletion>,
                    local: (seq<Message>, int) -> Outcome<string>,
                    timing: Timing,
                    system: Option<string> := None, useLocal: bool := false, maxTokens: int := DefaultMaxTokens)
      returns (r: Outcome<GenerationResult>)
      requires Valid()
      modifies this
      ensures Valid()
      ensures r == Generation(prompt, system, useLocal, maxTokens, apiKey, ClientFor(old(groqClient), apiKey),
                              remote, local, timing).outcome
      ensures groqClient == if !useLocal && Truthy(apiKey) then Some(ClientFor(old(groqClient), apiKey)) else old(groqClient)
    {
      if !useLocal && Truthy(apiKey) {
        r := GenerateGroq(prompt, system, maxTokens, apiKey, remote, timing.remoteMs);
        if r.Ok? || !Caught(r.error) {
          return;
        }
      }
      r := GenerateOllama(prompt, system, maxTokens, local, timing.localMs);
    }

    /**
     * `stream`: yields what `StreamOutput` says, given the chunk streams the
     * backends deliver for the built messages.
     */
    method Stream(prompt: string, apiKey: Option<string>,
                  remote: (GroqClient, seq<Message>) -> ChunkStream,
                  local: seq<Message> -> ChunkStream,
                  system: Option<string> := None, useLocal: bool := false)
      returns (chunks: seq<string>, failure: Option<Failure>)
      requires Valid()
      modifies this
      ensures Valid()
      ensures var o := StreamOutput(useLocal, apiKey,
                                    remote(ClientFor(old(groqClient), apiKey), Messages(prompt, system)),
                                    local(Messages(prompt, system)));
              chunks == o.chunks && failure == o.failure
      ensures groqClient == if !useLocal && Truthy(apiKey) then Some(ClientFor(old(groqClient), apiKey)) else old(groqClient)
    {
      chunks := [];
      if !useLocal && Truthy(apiKey) {
        var client := GetGroqClient(apiKey);
        var messages := BuildMessages(prompt, system);
        var raw := remote(client, messages);
        chunks := RelayNonEmpty(raw.contents);
        if raw.end.None? || !Caught(raw.end.value) {
          failure := raw.end;
          return;
        }
      }
      var messages := BuildMessages(prompt, system);
      var raw := local(messages);
      var localChunks := RelayNonEmpty(raw.contents);
      chunks := chunks + localChunks;
      failure := raw.end;
    }
  }

  /** With a credential and a remote stream that completes, nothing from the local strategy follows. */
  lemma StreamCompletesRemotely(useLocal: bool, apiKey: Option<string>, remote: ChunkStream, local: ChunkStream)
    requires !useLocal && Truthy(apiKey) && remote.end.None?
    ensures StreamOutput(useLocal, apiKey, remote, local) == StreamRun(NonEmptyChunks(remote.contents), None, [Remote])
  {
  }

  /** A remote stream that raises after some chunks keeps them, followed by every local chunk. */
  lemma StreamKeepsPartialRemote(useLocal: bool, apiKey: Option<string>, remote: ChunkStream, local: ChunkStream)
    requires !useLocal && Truthy(apiKey) && remote.end.Some? && Caught(remote.end.value)
    ensures var o := StreamOutput(useLocal, apiKey, remote, local);
      && o.chunks == NonEmptyChunks(remote.contents) + NonEmptyChunks(local.contents)
      && o.failure == local.end
  {
  }
}
