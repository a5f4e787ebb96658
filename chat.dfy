/** A multi-turn chat: a system prompt, the history of user and assistant
    turns in the order they were added, and the model. */
module Chat {
  import opened OllamaApi

  const DefaultSystemPrompt: string := "You are a helpful assistant."
  const DefaultModel: string := "llama2:latest"

  /** The request a chat turns into: one system message carrying the system
      prompt, then the history unchanged. */
  function RenderRequest(systemPrompt: string, messages: seq<ChatMessage>, model: string): (r: ChatMessageRequest)
    ensures r.modelName == model
    ensures |r.messages| == |messages| + 1
    ensures r.messages[0] == ChatMessage(System, systemPrompt)
    ensures forall i :: 0 <= i < |messages| ==> r.messages[i + 1] == messages[i]
  {
    ChatMessageRequest(model, [ChatMessage(System, systemPrompt)] + messages)
  }

  /** Only user and assistant turns. */
  predicate IsHistory(messages: seq<ChatMessage>)
  {
    forall i :: 0 <= i < |messages| ==> messages[i].role == User || messages[i].role == Assistant
  }

  /** Whatever turns were added, the request has exactly one system message,
      and it comes first. */
  lemma SystemMessageOnlyFirst(systemPrompt: string, messages: seq<ChatMessage>, model: string, i: nat)
    requires IsHistory(messages)
    requires i < |messages| + 1
    ensures RenderRequest(systemPrompt, messages, model).messages[i].role == System <==> i == 0
  {
  }

  /** Adding a turn adds exactly that message at the end of the request. */
  lemma RenderRequestAppend(systemPrompt: string, messages: seq<ChatMessage>, model: string, m: ChatMessage)
    ensures RenderRequest(systemPrompt, messages + [m], model).messages
         == RenderRequest(systemPrompt, messages, model).messages + [m]
  {
  }

  class Chat {
    var systemPrompt: string
    var messages: seq<ChatMessage>
    var model: string

    ghost predicate Valid()
      reads this
    {
      IsHistory(messages)
    }

    /** `Chat::new`. */
    constructor ()
      ensures Valid()
      ensures systemPrompt == DefaultSystemPrompt && messages == [] && model == DefaultModel
    {
      systemPrompt := DefaultSystemPrompt;
      messages := [];
      model := DefaultModel;
    }

    method SetModel(model': string)
      requires Valid()
      modifies this
      ensures Valid()
      ensures model == model'
      ensures systemPrompt == old(systemPrompt) && messages == old(messages)
    {
      model := model';
    }

    method SetSystemPrompt(prompt: string)
      requires Valid()
      modifies this
      ensures Valid()
      ensures systemPrompt == prompt
      ensures model == old(model) && messages == old(messages)
    {
      systemPrompt := prompt;
    }

    /** Pushes one user turn onto the history. */
    method AddUserMessage(message: string)
      requires Valid()
      modifies this
      ensures Valid()
      ensures messages == old(messages) + [ChatMessage(User, message)]
      ensures systemPrompt == old(systemPrompt) && model == old(model)
    {
      messages := messages + [ChatMessage(User, message)];
    }

    /** Pushes one assistant turn onto the history. */
    method AddAssistantMessage(message: string)
      requires Valid()
      modifies this
      ensures Valid()
      ensures messages == old(messages) + [ChatMessage(Assistant, message)]
      ensures systemPrompt == old(systemPrompt) && model == old(model)
    {
      messages := messages + [ChatMessage(Assistant, message)];
    }

    /** `into_request`: pushes the system message, then extends with the
      history. */
    method IntoRequest() returns (request: ChatMessageRequest)
      requires Valid()
      ensures request == RenderRequest(systemPrompt, messages, model)
      ensures forall i :: 0 <= i < |request.messages| ==> (request.messages[i].role == System <==> i == 0)
    {
      var fullMessages: seq<ChatMessage> := [];
      fullMessages := fullMessages + [ChatMessage(System, systemPrompt)];
      fullMessages := fullMessages + messages;
      request := ChatMessageRequest(model, fullMessages);
      forall i | 0 <= i < |request.messages|
        ensures request.messages[i].role == System <==> i == 0
      {
        SystemMessageOnlyFirst(systemPrompt, messages, model, i);
      }
    }
  }

  /** `From<Chat> for ChatMessageRequest`: the same request as `into_request`. */
  method RequestFromChat(chat: Chat) returns (request: ChatMessageRequest)
    requires chat.Valid()
    ensures request == RenderRequest(chat.systemPrompt, chat.messages, chat.model)
  {
    request := chat.IntoRequest();
  }

  /** Turns appended in any order come out after the system message in that
      order. */
  method Conversation(system: string, user1: string, reply: string, user2: string) returns (request: ChatMessageRequest)
    ensures request.messages == [ChatMessage(System, system), ChatMessage(User, user1),
                                 ChatMessage(Assistant, reply), ChatMessage(User, user2)]
    ensures request.modelName == DefaultModel
  {
    var chat := new Chat();
    chat.SetSystemPrompt(system);
    chat.AddUserMessage(user1);
    chat.AddAssistantMessage(reply);
    chat.AddUserMessage(user2);
    request := chat.IntoRequest();
  }
}
