/** `POST /ai/assist`: a fixed table of canned replies keyed by the kind of
    event asked about, with a default reply for anything else. */
module Assistant {

  const Replies: map<string, string> := map[
    "wedding" := "Premium or Luxury is best for weddings.",
    "birthday" := "Basic or Premium works great for birthdays.",
    "corporate" := "Luxury is ideal for corporate events."
  ]

  const DefaultReply: string := "Tell me more about your event."

  /** The handler's `table[question] || default`: the table's entry when there
      is one and it is truthy (non-empty), the default otherwise. Because every
      entry is non-empty and differs from the default, the reply is the default
      exactly when the question is not one of the three keys. */
  function Assist(question: string): (reply: string)
    ensures reply != ""
    ensures question in Replies ==> reply == Replies[question]
    ensures reply == DefaultReply <==> question !in Replies
    ensures reply == DefaultReply || reply in Replies.Values
  {
    if question in Replies && Replies[question] != "" then Replies[question] else DefaultReply
  }
}
