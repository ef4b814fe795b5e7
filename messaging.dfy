/**
 * The buyer's conversation with a seller (client/src/components/messaging/MessagingInterface.tsx):
 * a list of chat messages that starts with three demonstration messages, and a draft
 * box whose send handler appends the trimmed draft as a buyer message.
 */
module Messaging {
  import opened Text

  datatype Sender = Buyer | Seller

  /** A chat message; the timestamp is in milliseconds. */
  datatype ChatMessage = ChatMessage(id: int, sender: Sender, content: string, timestamp: int)

  const HourMillis: int := 3600000

  const Greeting: string :=
    "Thank you for your interest in our product! I'd be happy to provide more information or answer any questions you have."

  const Question: string :=
    "Hi there! I'm interested in learning more about your customer base. Could you share some information about the industries your users come from and your customer retention rates?"

  const Answer: string :=
    "Of course! Our customer base is primarily split across three main industries: 45% SaaS companies, 30% e-commerce, and 15% financial services, with the remaining 10% spread across various sectors.\n\nRegarding retention, we're proud of our 85% annual retention rate. Our monthly churn is approximately 3.2%, which we've been steadily improving over the past year through enhanced onboarding and customer success initiatives.\n\nWould you like me to share more specific information about customer acquisition costs or the typical sales cycle?"

  /** Each message's id is its 1-based position in the list. */
  predicate NumberedByPosition(messages: seq<ChatMessage>)
  {
    forall i :: 0 <= i < |messages| ==> messages[i].id == i + 1
  }

  /** The three demonstration messages, three, two and one hour before now. */
  function DemoMessages(now: int): (r: seq<ChatMessage>)
    ensures |r| == 3 && NumberedByPosition(r)
    ensures r[0].sender == Seller && r[1].sender == Buyer && r[2].sender == Seller
    ensures r[0].timestamp < r[1].timestamp < r[2].timestamp < now
  {
    [ ChatMessage(1, Seller, Greeting, now - HourMillis * 3),
      ChatMessage(2, Buyer, Question, now - HourMillis * 2),
      ChatMessage(3, Seller, Answer, now - HourMillis) ]
  }

  class MessagingInterface {
    var newMessage: string
    var messages: seq<ChatMessage>

    ghost predicate Valid()
      reads this
    {
      NumberedByPosition(messages)
    }

    /** The conversation as first shown at time now, with an empty draft. */
    constructor (now: int)
      ensures Valid()
      ensures newMessage == "" && messages == DemoMessages(now)
    {
      newMessage := "";
      messages := DemoMessages(now);
    }

    /**
     * handleSendMessage at time now: a blank draft changes nothing; otherwise the trimmed
     * draft is appended as a buyer message numbered after the last one, and the draft is
     * cleared.
     */
    method HandleSendMessage(now: int)
      requires Valid()
      modifies this
      ensures Valid()
      ensures Trim(old(newMessage)) == "" ==> newMessage == old(newMessage) && messages == old(messages)
      ensures Trim(old(newMessage)) != "" ==>
        && newMessage == ""
        && messages == old(messages) + [ChatMessage(|old(messages)| + 1, Buyer, Trim(old(newMessage)), now)]
    {
      if Trim(newMessage) == "" {
        return;
      }
      var message := ChatMessage(|messages| + 1, Buyer, Trim(newMessage), now);
      messages := messages + [message];
      newMessage := "";
    }
  }
}
