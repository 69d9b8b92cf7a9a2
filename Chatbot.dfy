/** The Cognitive Chat panel (`Chatbot` in features/Chatbot.tsx): the message history,
    the lazily created chat session that is dropped when the model changes, and
    `handleSendMessage`. The handler runs in two steps. `Send` is the synchronous
    part up to the first `await`. `Receive` is what happens once the reply stream
    opens (or fails), through the `for await` loop to the `finally`. The SDK's chat
    objects appear only as the entries of a creation log. */
module Chatbot {
  import opened JsText

  datatype Role = User | Model

  /** `{ role, parts: [{ text }] }` */
  datatype ChatMessage = ChatMessage(role: Role, text: string)

  /** One `ai.chats.create` call: the model it was made for and the history it was
      seeded with. */
  datatype ChatConfig = ChatConfig(model: string, seed: seq<ChatMessage>)

  /** One `chat.sendMessageStream` call: which created chat it went to, and the text. */
  datatype Sent = Sent(chat: nat, message: string)

  /** How the awaited stream ends. `OpenFailed` means `sendMessageStream` rejected.
      `Streamed` means the stream opened and yielded `chunks`, whose `text` may be
      undefined; `interruption` is the error that ended it early, if any. */
  datatype Reply = OpenFailed(thrown: Thrown) | Streamed(chunks: seq<Option<string>>, interruption: Option<Thrown>)

  const DefaultModel := "gemini-3-pro-preview"
  const UnknownError := "An unknown error occurred."

  /** `currentResponse` after the chunks so far: each chunk's text appended with `+=`,
      an undefined text reading as "undefined". */
  function Concat(chunks: seq<Option<string>>): string
    decreases |chunks|
  {
    if chunks == [] then "" else Concat(chunks[..|chunks| - 1]) + AsText(chunks[|chunks| - 1])
  }

  /** Streaming two runs of chunks one after the other shows their two texts joined. */
  lemma {:induction false} ConcatAppend(a: seq<Option<string>>, b: seq<Option<string>>)
    ensures Concat(a + b) == Concat(a) + Concat(b)
    decreases |b|
  {
    if b == [] {
      assert a + b == a;
    } else {
      var front, x := b[..|b| - 1], AsText(b[|b| - 1]);
      ConcatAppend(a, front);
      assert (a + b)[..|a + b| - 1] == a + front;
      assert (a + b)[|a + b| - 1] == b[|b| - 1];
      assert Concat(a + b) == Concat(a) + Concat(front) + x;
      assert Concat(a) + Concat(front) + x == Concat(a) + (Concat(front) + x);
    }
  }

  /** The text shown while streaming only grows: after `i` chunks it is a prefix of
      the text after `j >= i` chunks. */
  lemma StreamedTextGrows(chunks: seq<Option<string>>, i: nat, j: nat)
    requires i <= j <= |chunks|
    ensures Concat(chunks[..i]) <= Concat(chunks[..j])
  {
    assert chunks[..j] == chunks[..i] + chunks[i..j];
    ConcatAppend(chunks[..i], chunks[i..j]);
  }

  /** A chunk without text is shown as the word "undefined". */
  lemma UndefinedChunkShowsAsText()
    ensures Concat([Some("Hel"), None, Some("lo")]) == "Helundefinedlo"
  {
    var c := [Some("Hel"), None, Some("lo")];
    assert Concat(c[..1]) == "Hel" by { assert c[..1][..0] == []; }
    assert Concat(c[..2]) == "Helundefined" by { assert c[..2][..1] == c[..1]; }
    assert c[..3][..2] == c[..2] && c[..3] == c;
  }

  /** `newHistory[newHistory.length - 1] = m`: the last entry becomes `m`; the length
      and every earlier entry stay as they were. */
  function ReplaceLast(h: seq<ChatMessage>, m: ChatMessage): (r: seq<ChatMessage>)
    requires h != []
    ensures |r| == |h| && r[|r| - 1] == m
    ensures forall i :: 0 <= i < |h| - 1 ==> r[i] == h[i]
  {
    h[..|h| - 1] + [m]
  }

  /** `prev.slice(0, -1)`: the history without its last entry; empty stays empty. */
  function DropLast(h: seq<ChatMessage>): (r: seq<ChatMessage>)
    ensures h == [] ==> r == []
    ensures h != [] ==> r + [h[|h| - 1]] == h
  {
    if h == [] then [] else h[..|h| - 1]
  }

  /** Dropping the last entry undoes appending one, so an error removes exactly the
      entry the send added last. */
  lemma DropLastUndoesAppend(h: seq<ChatMessage>, m: ChatMessage)
    ensures DropLast(h + [m]) == h
  {
    var r := DropLast(h + [m]);
    assert r + [m] == h + [m];
    assert r == (r + [m])[..|r|];
  }

  class ChatPanel {
    var history: seq<ChatMessage>
    var input: string
    var isLoading: bool
    var error: Option<string>
    var model: string
    /** `chatRef`: the index in `created` of the cached chat, or None when it is null. */
    var chat: Option<nat>
    /** Every `ai.chats.create` call, in order. */
    var created: seq<ChatConfig>
    /** Every `sendMessageStream` call, in order. */
    var sent: seq<Sent>

    /** The cached chat, if any, is one that was created, and for the current model.
        While a reply is awaited the history ends with the user's message. */
    ghost predicate Valid()
      reads this
    {
      && (chat.Some? ==> chat.value < |created| && created[chat.value].model == model)
      && (isLoading ==> history != [] && history[|history| - 1].role == User)
    }

    /** The first render: empty history and input, the default model, no chat. */
    constructor ()
      ensures Valid()
      ensures history == [] && input == "" && !isLoading && error == None
      ensures model == DefaultModel && chat == None && created == [] && sent == []
    {
      history, input, isLoading, error := [], "", false, None;
      model, chat, created, sent := DefaultModel, None, [], [];
    }

    /** The textarea's `onChange`. */
    method SetInput(text: string)
      requires Valid()
      modifies this`input
      ensures Valid() && input == text
    {
      input := text;
    }

    /** A new model, followed by the effect that runs when `model` changes: the cached
        chat is dropped, so the next send creates one for the new model. Setting the
        same model again changes nothing. */
    method SelectModel(m: string)
      requires Valid()
      modifies this`model, this`chat
      ensures Valid() && model == m
      ensures chat == if m == old(model) then old(chat) else None
    {
      if m != model {
        model, chat := m, None;
      }
    }

    /** `getChat`. A cached chat is returned as it is. Otherwise a chat is created for
        the current model, seeded with `seed`, and cached. `creation` is the error
        `ai.chats.create` throws, if it throws; then nothing is cached. */
    method GetChat(seed: seq<ChatMessage>, creation: Option<Thrown>) returns (id: Option<nat>)
      requires Valid()
      modifies this`chat, this`created
      ensures Valid()
      ensures old(chat).Some? ==> id == old(chat) && chat == old(chat) && created == old(created)
      ensures old(chat).None? && creation.Some? ==> id == None && chat == None && created == old(created)
      ensures old(chat).None? && creation.None? ==>
        && id == Some(|old(created)|) && chat == id
        && created == old(created) + [ChatConfig(model, seed)]
    {
      if chat.Some? {
        return chat;
      }
      if creation.Some? {
        return None;
      }
      created := created + [ChatConfig(model, seed)];
      chat := Some(|created| - 1);
      return chat;
    }

    /** The synchronous part of `handleSendMessage`. It does nothing when the trimmed
        input is empty or a reply is being awaited. Otherwise it appends the user's
        message, clears the input, sets loading and clears the error. It then gets
        the chat, seeded with the history as it was before this message, and sends
        the text to it. If getting the chat throws, the `catch` and `finally` run
        at once: the user's message is removed again, the error is set and loading
        cleared, and the typed text is gone from the input as well. */
    method Send(creation: Option<Thrown>) returns (began: bool)
      requires Valid()
      modifies this`history, this`input, this`isLoading, this`error, this`chat, this`created, this`sent
      ensures Valid()
      ensures began <==> !IsBlank(old(input)) && !old(isLoading)
      ensures !began ==> unchanged(this)
      ensures began ==> input == ""
      ensures began && (old(chat).Some? || creation.None?) ==>
        && history == old(history) + [ChatMessage(User, old(input))]
        && isLoading && error == None
        && chat.Some? && sent == old(sent) + [Sent(chat.value, old(input))]
        && (old(chat).Some? ==> chat == old(chat) && created == old(created))
        && (old(chat).None? ==> chat == Some(|old(created)|) && created == old(created) + [ChatConfig(model, old(history))])
      ensures began && old(chat).None? && creation.Some? ==>
        && history == old(history) && !isLoading
        && error == Some(ErrorText(creation.value, UnknownError))
        && chat == None && created == old(created) && sent == old(sent)
    {
      TrimEmptyIffBlank(input);
      if Trim(input) == "" || isLoading {
        return false;
      }
      began := true;
      Dispatch(creation);
    }

    /** Everything `Send` does once the guard has passed. */
    method Dispatch(creation: Option<Thrown>)
      requires Valid() && !isLoading
      modifies this`history, this`input, this`isLoading, this`error, this`chat, this`created, this`sent
      ensures Valid() && input == ""
      ensures old(chat).Some? || creation.None? ==>
        && history == old(history) + [ChatMessage(User, old(input))]
        && isLoading && error == None
        && chat.Some? && sent == old(sent) + [Sent(chat.value, old(input))]
        && (old(chat).Some? ==> chat == old(chat) && created == old(created))
        && (old(chat).None? ==> chat == Some(|old(created)|) && created == old(created) + [ChatConfig(model, old(history))])
      ensures old(chat).None? && creation.Some? ==>
        && history == old(history) && !isLoading
        && error == Some(ErrorText(creation.value, UnknownError))
        && chat == None && created == old(created) && sent == old(sent)
    {
      var prior, text := history, input;
      Submit(text);
      var id := GetChat(prior, creation);
      if id.None? {
        DropLastUndoesAppend(prior, ChatMessage(User, text));
        Catch(creation.value);
        isLoading := false;
        return;
      }
      sent := sent + [Sent(id.value, text)];
    }

    /** The state updates before the `try`: the user's message is appended, the
        input cleared, loading set and the error cleared. */
    method Submit(text: string)
      requires Valid()
      modifies this`history, this`input, this`isLoading, this`error
      ensures Valid()
      ensures history == old(history) + [ChatMessage(User, text)]
      ensures input == "" && isLoading && error == None
    {
      history := history + [ChatMessage(User, text)];
      input, isLoading, error := "", true, None;
    }

    /** The `catch` block: the error's message, or the fallback for a non-Error, is
        shown, and the last entry of the history is dropped. */
    method Catch(thrown: Thrown)
      modifies this`history, this`error
      ensures error == Some(ErrorText(thrown, UnknownError))
      ensures history == DropLast(old(history))
    {
      error := Some(ErrorText(thrown, UnknownError));
      history := DropLast(history);
    }

    /** The rest of `handleSendMessage`, once the awaited stream settles. If it failed
        to open, the `catch` drops the last entry, which is the user's message. If it
        opened, an empty model entry is appended, and after each chunk that entry
        holds the text of all chunks so far. An interruption drops that model entry
        again and leaves the user's message. The error is set on either failure, and
        loading is cleared on every path. */
    method Receive(reply: Reply)
      requires Valid() && isLoading
      modifies this`history, this`isLoading, this`error
      ensures Valid() && !isLoading
      ensures reply.OpenFailed? ==>
        history == old(history)[..|old(history)| - 1]
        && error == Some(ErrorText(reply.thrown, UnknownError))
      ensures reply.Streamed? && reply.interruption.None? ==>
        history == old(history) + [ChatMessage(Model, Concat(reply.chunks))] && error == old(error)
      ensures reply.Streamed? && reply.interruption.Some? ==>
        history == old(history) && error == Some(ErrorText(reply.interruption.value, UnknownError))
    {
      match reply {
        case OpenFailed(thrown) =>
          Catch(thrown);
        case Streamed(chunks, interruption) =>
          Stream(chunks, interruption);
      }
      isLoading := false;
    }

    /** The `for await` loop and, on an interruption, the `catch`. */
    method Stream(chunks: seq<Option<string>>, interruption: Option<Thrown>)
      modifies this`history, this`error
      ensures interruption.None? ==> history == old(history) + [ChatMessage(Model, Concat(chunks))] && error == old(error)
      ensures interruption.Some? ==>
        history == old(history) && error == Some(ErrorText(interruption.value, UnknownError))
    {
      var current := "";
      history := history + [ChatMessage(Model, "")];
      for i := 0 to |chunks|
        invariant current == Concat(chunks[..i])
        invariant history == old(history) + [ChatMessage(Model, current)]
        invariant error == old(error)
      {
        assert chunks[..i + 1][..i] == chunks[..i];
        current := current + AsText(chunks[i]);
        history := ReplaceLast(history, ChatMessage(Model, current));
      }
      assert chunks[..|chunks|] == chunks;
      if interruption.Some? {
        DropLastUndoesAppend(old(history), ChatMessage(Model, current));
        Catch(interruption.value);
      }
    }
  }

  /** Two exchanges in a row share one chat. The first send creates the chat if none
      is cached; the second, made after the reply settles, finds it cached, so it
      neither creates a chat nor can fail to create one. */
  method SecondSendReusesChat(p: ChatPanel, reply: Reply, next: string, creation: Option<Thrown>)
    requires p.Valid() && !p.isLoading && !IsBlank(p.input) && !IsBlank(next)
    modifies p
    ensures p.Valid() && p.isLoading
    ensures |p.created| == |old(p.created)| + (if old(p.chat).None? then 1 else 0)
    ensures |p.sent| == |old(p.sent)| + 2 && p.sent[|p.sent| - 1] == Sent(p.sent[|p.sent| - 2].chat, next)
  {
    var began := p.Send(None);
    ghost var chat, created, sent := p.chat, p.created, p.sent;
    assert chat.Some? && |created| == |old(p.created)| + (if old(p.chat).None? then 1 else 0);
    assert sent == old(p.sent) + [Sent(chat.value, old(p.input))];
    p.Receive(reply);
    p.SetInput(next);
    began := p.Send(creation);
    assert p.created == created && p.sent == sent + [Sent(chat.value, next)];
  }

  /** After the model changes, the next send creates a new chat for that model,
      seeded with the history as it stood before the message being sent. */
  method ModelChangeStartsNewChat(p: ChatPanel, m: string)
    requires p.Valid() && !p.isLoading && !IsBlank(p.input) && m != p.model
    modifies p
    ensures p.Valid() && p.model == m && p.chat == Some(|old(p.created)|)
    ensures p.created == old(p.created) + [ChatConfig(m, old(p.history))]
  {
    p.SelectModel(m);
    var began := p.Send(None);
  }
}
