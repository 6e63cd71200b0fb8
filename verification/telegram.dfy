/**
 * The notifier: sends one text to the bot API with a single POST.  The POST
 * itself is not modelled; what the provider did with it is the input
 * `ProviderReply`.
 */
module Telegram {
  import opened Wrappers

  /** What the POST produced: a response with a status, or a raised exception. */
  datatype ProviderReply = Answered(status: int) | Raised(description: string)

  /** The POST the notifier would issue: its URL and its JSON payload. */
  datatype PostRequest = PostRequest(url: string, chatId: string, text: string, parseMode: string)

  const ApiBase := "https://api.telegram.org/bot"
  const SendMessagePath := "/sendMessage"
  const HtmlParseMode := "HTML"

  /** The request for `message`, or None when the token or the chat id is empty. */
  function MessageRequest(botToken: string, chatId: string, message: string): (r: Option<PostRequest>)
    ensures r.None? <==> botToken == "" || chatId == ""
    ensures r.Some? ==> r.value.chatId == chatId && r.value.text == message && r.value.parseMode == HtmlParseMode
    ensures r.Some? ==> |r.value.url| == |ApiBase| + |botToken| + |SendMessagePath|
    ensures r.Some? ==> r.value.url[..|ApiBase|] == ApiBase
    ensures r.Some? ==> r.value.url[|ApiBase|..|ApiBase| + |botToken|] == botToken
    ensures r.Some? ==> r.value.url[|ApiBase| + |botToken|..] == SendMessagePath
  {
    if botToken == "" || chatId == "" then None
    else Some(PostRequest(ApiBase + botToken + SendMessagePath, chatId, message, HtmlParseMode))
  }

  /**
   * Whether the message was delivered.  Total: every exception is absorbed,
   * and no reply is consulted when no POST is made.
   */
  function SendTelegramMessage(botToken: string, chatId: string, message: string, reply: ProviderReply): (delivered: bool)
    ensures delivered <==> botToken != "" && chatId != "" && reply == Answered(200)
  {
    match MessageRequest(botToken, chatId, message)
    case None => false
    case Some(_) =>
      match reply
      case Answered(status) => status == 200
      case Raised(_) => false
  }

  /** Without a token or a chat id nothing is posted and the result is false, whatever the provider would say. */
  lemma UnconfiguredNeverPosts(botToken: string, chatId: string, message: string, reply: ProviderReply)
    requires botToken == "" || chatId == ""
    ensures MessageRequest(botToken, chatId, message) == None
    ensures !SendTelegramMessage(botToken, chatId, message, reply)
  {
  }
}
