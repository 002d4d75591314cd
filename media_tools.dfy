/**
  The desktop-automation tools: `play_video` (pywhatkit autoplay, with the
  browser as fallback) and `send_whatsapp` (pywhatkit through WhatsApp
  Web). The automation is not run; how it ended is an argument, and what
  it is asked to do is part of the result.
 */
module MediaTools {
  import opened PyStr
  import opened Wrappers

  // ---- play_video ----

  /** How the autoplay attempt ended. Importing pywhatkit happens inside
      the same `try`, so a missing module is a failure like any other. */
  datatype AutoplayOutcome = Played | AutoplayFailed

  /** A way of playing the topic, in the order `play_video` tries them. */
  datatype Strategy = Autoplay(topic: string) | OpenSearchPage(url: string)

  /** The reply, and the strategies tried, in order. */
  datatype VideoRun = VideoRun(reply: string, attempts: seq<Strategy>)

  const SearchUrlPrefix := "https://www.youtube.com/results?search_query="

  /** The YouTube search page for the topic; the topic is pasted in
      without URL encoding. */
  function SearchUrl(topic: string): (url: string)
    ensures StartsWith(url, SearchUrlPrefix) && url[|SearchUrlPrefix|..] == topic
  {
    SearchUrlPrefix + topic
  }

  /** Reads the topic back out of a search page URL. */
  function TopicOfSearchUrl(url: string): Option<string>
  {
    if StartsWith(url, SearchUrlPrefix) then Some(url[|SearchUrlPrefix|..]) else None
  }

  /** The fallback page searches for exactly the requested topic. */
  lemma SearchUrlNamesTopic(topic: string)
    ensures TopicOfSearchUrl(SearchUrl(topic)) == Some(topic)
  {
  }

  /** `play_video`: autoplay is always tried first; only when it fails is
      the search page opened, and the reply says which happened. */
  function PlayVideo(topic: string, autoplay: AutoplayOutcome): (run: VideoRun)
    ensures |run.attempts| >= 1 && run.attempts[0] == Autoplay(topic)
    ensures autoplay.Played? ==>
      run.attempts == [Autoplay(topic)]
      && run.reply == "I've started playing " + topic + " on YouTube."
    ensures autoplay.AutoplayFailed? ==>
      run.attempts == [Autoplay(topic), OpenSearchPage(SearchUrl(topic))]
      && run.reply == "I couldn't autoplay the specific video, but I've opened YouTube search results for "
                      + topic + "."
  {
    match autoplay
    case Played =>
      VideoRun("I've started playing " + topic + " on YouTube.", [Autoplay(topic)])
    case AutoplayFailed =>
      VideoRun("I couldn't autoplay the specific video, but I've opened YouTube search results for "
               + topic + ".", [Autoplay(topic), OpenSearchPage(SearchUrl(topic))])
  }

  /** The browser is opened exactly when autoplay failed, and then on the
      search page for the requested topic. */
  lemma FallbackOnlyAfterFailure(topic: string, autoplay: AutoplayOutcome, url: string)
    ensures OpenSearchPage(url) in PlayVideo(topic, autoplay).attempts
        <==> autoplay.AutoplayFailed? && TopicOfSearchUrl(url) == Some(topic)
  {
    var attempts := PlayVideo(topic, autoplay).attempts;
    if autoplay.AutoplayFailed? && TopicOfSearchUrl(url) == Some(topic) {
      assert url == SearchUrlPrefix + url[|SearchUrlPrefix|..];
      assert attempts[1] == OpenSearchPage(url);
    }
  }

  // ---- send_whatsapp ----

  /** How `send_whatsapp` ended on the automation side: the pywhatkit
      import failed (before the `try`), the message was typed, or the
      typing call raised. */
  datatype WhatsAppOutcome = ModuleMissing | Typed | TypingRaised

  /** What pywhatkit is asked to do: the number, the message, how long to
      wait for WhatsApp Web, and whether to close the tab afterwards. */
  datatype WhatsAppRequest = WhatsAppRequest(phoneNumber: string, message: string, waitTime: nat, tabClose: bool)

  /** The result of a tool call: a reply, or an exception that escapes the
      tool. */
  datatype ToolResult = Replied(text: string) | Escaped

  const WaitSeconds := 25
  const DefaultCountryCode := "+91"
  const WhatsAppFailure := "I tried to send the WhatsApp message, but it failed. Is WhatsApp Web logged in?"

  /** The number as `send_whatsapp` dials it: unchanged when it starts
      with "+", otherwise stripped and given the Indian country code. The
      "+" test looks at the raw, unstripped text. */
  function NormalizedNumber(phoneNumber: string): (dialled: string)
    ensures StartsWith(dialled, "+")
    ensures StartsWith(phoneNumber, "+") ==> dialled == phoneNumber
    ensures !StartsWith(phoneNumber, "+") ==> dialled == DefaultCountryCode + Strip(phoneNumber)
  {
    if StartsWith(phoneNumber, "+") then phoneNumber else DefaultCountryCode + Strip(phoneNumber)
  }

  /** Normalising an already normalised number changes nothing. */
  lemma NormalizedIdempotent(phoneNumber: string)
    ensures NormalizedNumber(NormalizedNumber(phoneNumber)) == NormalizedNumber(phoneNumber)
  {
  }

  /** A local number with whitespace around it is dialled as the code
      followed by the number alone. */
  lemma NormalizedLocalNumber(pre: string, number: string, post: string)
    requires AllSpace(pre) && AllSpace(post) && IsStripped(number)
    requires !StartsWith(pre + number + post, "+")
    ensures NormalizedNumber(pre + number + post) == DefaultCountryCode + number
  {
    StripOfPadded(pre, number, post);
  }

  /** An international number preceded by whitespace fails the raw "+"
      test and gets a second country code in front of its own. */
  lemma PaddedInternationalNumberGetsSecondCode(pre: string, number: string)
    requires pre != [] && AllSpace(pre)
    requires StartsWith(number, "+") && IsStripped(number)
    ensures NormalizedNumber(pre + number) == DefaultCountryCode + number
  {
    assert (pre + number)[0] == pre[0];
    StripOfPadded(pre, number, []);
    assert pre + number + [] == pre + number;
  }

  /** `send_whatsapp`. The import precedes the `try`, so a missing
      pywhatkit escapes as an exception; otherwise the number is normalised
      in place, the request is made, and the reply reports the typed
      message or the failure. */
  method SendWhatsApp(phoneNumber: string, message: string, outcome: WhatsAppOutcome)
    returns (result: ToolResult, request: Option<WhatsAppRequest>)
    ensures outcome.ModuleMissing? <==> result.Escaped?
    ensures outcome.ModuleMissing? ==> request.None?
    ensures !outcome.ModuleMissing? ==>
      request == Some(WhatsAppRequest(NormalizedNumber(phoneNumber), message, WaitSeconds, false))
    ensures outcome.Typed? ==>
      result == Replied("I have opened WhatsApp and typed the message to "
                        + NormalizedNumber(phoneNumber) + ". Please check if it sent.")
    ensures outcome.TypingRaised? ==> result == Replied(WhatsAppFailure)
  {
    if outcome.ModuleMissing? {
      return Escaped, None;
    }
    var number := phoneNumber;
    if !StartsWith(number, "+") {
      number := DefaultCountryCode + Strip(number);
    }
    request := Some(WhatsAppRequest(number, message, WaitSeconds, false));
    if outcome.Typed? {
      result := Replied("I have opened WhatsApp and typed the message to " + number + ". Please check if it sent.");
    } else {
      result := Replied(WhatsAppFailure);
    }
  }
}
