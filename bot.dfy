/**
 * The chat bot (discord_bot.py): it loads the assistant's collection when
 * it connects, and answers a message only when the message mentions it
 * and comes from someone else, with the question taken from the message
 * text with the mention removed.
 */
module Bot {
  import opened Wrappers
  import opened Text
  import opened Collaborators
  import Batching
  import Loading
  import Assistant

  const NotLoadedReply := "Sorry, my knowledge base is not loaded yet. Please try again in a moment."

  /** What the bot sees of a message: its author, its text, and whom it mentions. */
  datatype Message = Message(authorId: nat, content: string, mentionsEveryone: bool, mentionIds: seq<nat>)

  /** `user.mentioned_in(message)`: the message mentions everyone, or mentions this user. */
  predicate MentionedIn(userId: nat, msg: Message) {
    msg.mentionsEveryone || userId in msg.mentionIds
  }

  /** The text of a mention of the user: `<@`, the user's id in decimal, `>`. */
  function MentionToken(userId: nat): (r: string)
    ensures |r| >= 4 && r[..2] == "<@" && r[|r| - 1] == '>'
    ensures forall k :: 2 <= k < |r| - 1 ==> IsDigit(r[k])
    ensures ParseNat(r[2..|r| - 1]) == userId
  {
    var r := "<@" + NatToString(userId) + ">";
    assert r[2..|r| - 1] == NatToString(userId);
    r
  }

  /** Different users are mentioned by different texts. */
  lemma MentionTokenInjective(a: nat, b: nat)
    requires MentionToken(a) == MentionToken(b)
    ensures a == b
  {
  }

  /** `message.content.replace(f'<@{id}>', '').strip()`. */
  function ExtractQuestion(userId: nat, content: string): string {
    Strip(RemoveAll(content, MentionToken(userId)))
  }

  /** Text that holds no mention of the user is only stripped. */
  lemma QuestionWithoutMention(userId: nat, content: string)
    requires !IsSubstring(MentionToken(userId), content)
    ensures ExtractQuestion(userId, content) == Strip(content)
  {
    RemoveAllAbsent(content, MentionToken(userId));
  }

  /** A leading mention and the blank after it are removed. */
  lemma QuestionExample()
    ensures ExtractQuestion(7, "<@7> hi") == "hi"
  {
    MentionOfSeven();
    RemoveLeadingMention();
    StripExample();
  }

  lemma MentionOfSeven()
    ensures MentionToken(7) == "<@7>"
  {
    assert NatToString(7) == "7";
  }

  lemma MentionOfOne()
    ensures MentionToken(1) == "<@1>"
  {
    assert NatToString(1) == "1";
  }

  lemma RemoveLeadingMention()
    ensures RemoveAll("<@7> hi", "<@7>") == " hi"
  {
    assert "<@7> hi"[..4] == "<@7>";
    assert "<@7> hi"[4..] == " hi";
  }

  lemma StripExample()
    ensures Strip(" hi") == "hi"
  {
    TrimLeftExample();
    TrimRightExample();
  }

  lemma TrimLeftExample()
    ensures TrimLeft(" hi") == "hi"
  {
    assert IsSpace(' ');
    assert " hi"[1..] == "hi";
    assert !IsSpace('h');
  }

  lemma TrimRightExample()
    ensures TrimRight("hi") == "hi"
  {
    assert !IsSpace('i');
  }

  /**
   * The replacement is a single left-to-right pass, so a mention that only
   * comes into being when an inner one is removed stays in the question.
   */
  lemma QuestionCanKeepMention()
    ensures ExtractQuestion(1, "<@<@1>1>") == "<@1>"
  {
    MentionOfOne();
    RemoveInnerMention();
    StripMention();
  }

  lemma RemoveInnerMention()
    ensures RemoveAll("<@<@1>1>", "<@1>") == "<@1>"
  {
    var s := "<@<@1>1>";
    assert s[..4] != "<@1>" by { assert s[..4][2] == '<'; }
    assert s[1..] == "@<@1>1>";
    assert s[1..][..4] != "<@1>" by { assert s[1..][..4][0] == '@'; }
    assert s[1..][1..] == "<@1>1>";
    assert s[1..][1..][..4] == "<@1>";
    assert s[1..][1..][4..] == "1>";
  }

  lemma StripMention()
    ensures Strip("<@1>") == "<@1>"
  {
    assert TrimLeft("<@1>") == "<@1>";
    assert TrimRight("<@1>") == "<@1>";
  }

  /** The bot: its own user id and the collection it answers from, once loaded. */
  class Bot {
    const userId: nat
    /** `db_collection`: unset until the bot has connected. */
    var db: Collection?

    constructor (userId: nat)
      ensures this.userId == userId && db == null
    {
      this.userId := userId;
      db := null;
    }

    /** `on_ready`: load the assistant's collection and keep it. */
    method OnReady(collection: Collection, embeddings: EmbeddingClient, data: seq<Metadata>)
      modifies this, collection, embeddings
      ensures db == collection
      ensures old(collection.Count()) > 0 ==>
        && collection.entries == old(collection.entries)
        && collection.addLog == old(collection.addLog)
        && embeddings.requests == old(embeddings.requests)
      ensures old(collection.Count()) == 0 ==>
        && collection.entries == Assistant.LoadedCorpus(data, embeddings.embed)
        && collection.addLog == old(collection.addLog) + Batching.Batches(Loading.Ids(|data|))
        && embeddings.requests == old(embeddings.requests) + Assistant.EmbeddingCalls(Batching.Batches(Assistant.Documents(data)))
    {
      Assistant.CreateAndLoadDatabase(collection, embeddings, data);
      db := collection;
    }

    /**
     * `on_message`: `None` when nothing is sent, `Some(text)` for the text
     * sent back. Own messages and messages that do not mention the bot get
     * no reply; before the collection is loaded the reply is the fixed
     * apology and the chat service is not called; afterwards it is the
     * assistant's answer to the extracted question.
     */
    method OnMessage(msg: Message, rank: string -> seq<string>, chat: ChatClient) returns (reply: Option<string>)
      requires db != null ==> IsRanking(rank(ExtractQuestion(userId, msg.content)), db.entries)
      modifies chat
      ensures msg.authorId == userId || !MentionedIn(userId, msg) ==>
        reply == None && chat.requests == old(chat.requests)
      ensures msg.authorId != userId && MentionedIn(userId, msg) && db == null ==>
        reply == Some(NotLoadedReply) && chat.requests == old(chat.requests)
      ensures msg.authorId != userId && MentionedIn(userId, msg) && db != null ==>
        var question := ExtractQuestion(userId, msg.content);
        var request := Assistant.AssistantRequest(question, Assistant.Context(db.Query(question, Assistant.ResultCount, rank)));
        reply == Some(chat.reply(request)) && chat.requests == old(chat.requests) + [request]
    {
      if msg.authorId == userId {
        return None;
      }
      if !MentionedIn(userId, msg) {
        return None;
      }
      var question := ExtractQuestion(userId, msg.content);
      var answer := Answer(question, rank, chat);
      reply := Some(answer);
    }

    /**
     * The reply to a question once the bot has been mentioned: the fixed
     * apology before the collection is loaded, the assistant's answer after.
     */
    method Answer(question: string, rank: string -> seq<string>, chat: ChatClient) returns (answer: string)
      requires db != null ==> IsRanking(rank(question), db.entries)
      modifies chat
      ensures db == null ==> answer == NotLoadedReply && chat.requests == old(chat.requests)
      ensures db != null ==>
        var request := Assistant.AssistantRequest(question, Assistant.Context(db.Query(question, Assistant.ResultCount, rank)));
        answer == chat.reply(request) && chat.requests == old(chat.requests) + [request]
    {
      if db != null {
        answer := Assistant.QueryAssistant(question, db, rank, chat);
      } else {
        answer := NotLoadedReply;
      }
    }
  }
}
