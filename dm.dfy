/**
 * Direct messages (`DmService`): a list of conversations, each an object
 * holding the other user's id and a message array that sending appends to
 * in place.
 */
module Dm {
  import opened Wrappers

  /** A message; the timestamp is a clock reading passed in by the caller. */
  datatype Message = Message(userId: string, handle: string, avatarUrl: string, timestamp: int, message: string)

  /** A conversation: the user id never changes, the message array grows in place. */
  class Conversation {
    const userId: string
    var messages: seq<Message>

    constructor(userId: string, messages: seq<Message>)
      ensures this.userId == userId && this.messages == messages
    {
      this.userId := userId;
      this.messages := messages;
    }
  }

  /** `conversations.find(c => c.userId === userId)`: the first conversation
    * with that user, or None for `undefined`. */
  function FindConversation(convos: seq<Conversation>, userId: string): (r: Option<nat>)
    ensures r.Some? ==> r.value < |convos| && convos[r.value].userId == userId &&
                        forall j :: 0 <= j < r.value ==> convos[j].userId != userId
    ensures r.None? <==> forall j :: 0 <= j < |convos| ==> convos[j].userId != userId
  {
    if |convos| == 0 then None
    else if convos[0].userId == userId then Some(0)
    else match FindConversation(convos[1..], userId)
      case None => None
      case Some(i) => Some(i + 1)
  }

  const ME_AVATAR: string := "https://picsum.photos/seed/me/100/100"
  const PLAYER_ONE_AVATAR: string := "https://picsum.photos/seed/playerone/100/100"

  class DmService {
    var conversations: seq<Conversation>

    /** The service starts with one mock conversation with user '2', both
      * messages stamped with the clock reading `now`. */
    constructor(now: int)
      ensures |conversations| == 1 && fresh(conversations[0])
      ensures conversations[0].userId == "2"
      ensures conversations[0].messages == [
                Message("1", "Me", ME_AVATAR, now, "Hey there!"),
                Message("2", "PlayerOne", PLAYER_ONE_AVATAR, now, "Hi! How are you?")]
    {
      var c := new Conversation("2", [
        Message("1", "Me", ME_AVATAR, now, "Hey there!"),
        Message("2", "PlayerOne", PLAYER_ONE_AVATAR, now, "Hi! How are you?")]);
      conversations := [c];
    }

    /** `getConversation`. */
    function GetConversation(userId: string): (r: Option<Conversation>)
      reads this
      ensures r.Some? ==> exists i :: 0 <= i < |conversations| && r.value == conversations[i] &&
                                      conversations[i].userId == userId &&
                                      forall j :: 0 <= j < i ==> conversations[j].userId != userId
      ensures r.None? <==> forall j :: 0 <= j < |conversations| ==> conversations[j].userId != userId
    {
      match FindConversation(conversations, userId)
      case None => None
      case Some(i) => Some(conversations[i])
    }

    /** `sendMessage`: the message is pushed onto the first matching
      * conversation's own array; an unknown user changes nothing. The
      * updater hands back the very list it was given. */
    method SendMessage(userId: string, message: Message) returns (convos: seq<Conversation>)
      modifies conversations
      ensures convos == conversations && conversations == old(conversations)
      ensures FindConversation(conversations, userId).Some? ==>
                var target := conversations[FindConversation(conversations, userId).value];
                target.messages == old(target.messages) + [message] &&
                forall c :: c in conversations && c != target ==> c.messages == old(c.messages)
      ensures FindConversation(conversations, userId).None? ==>
                forall c :: c in conversations ==> c.messages == old(c.messages)
    {
      convos := conversations;
      var found := FindConversation(convos, userId);
      if found.Some? {
        var convo := convos[found.value];
        convo.messages := convo.messages + [message];
      }
    }
  }
}
