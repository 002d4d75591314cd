/**
  The tools that need no external service: `echo_message`,
  `calculate_sum` and the reminder, notification and translation stubs.
 */
module UtilityTools {
  import opened PyStr

  // ---- echo_message ----

  /** `echo_message`: the message comes back unchanged. */
  function EchoMessage(message: string): (reply: string)
    ensures reply == message
  {
    message
  }

  // ---- calculate_sum ----

  /** The tokens `calculate_sum` hands to `float()`: the text between
      commas, split at every comma, each token stripped. */
  function Tokens(numbers: string): (tokens: seq<string>)
    ensures |tokens| == Count(numbers, ',') + 1
    ensures forall i :: 0 <= i < |tokens| ==> IsStripped(tokens[i]) && Lacks(tokens[i], ',')
  {
    var pieces := Split(numbers, ',');
    seq(|pieces|, i requires 0 <= i < |pieces| => StripCommaFree(pieces[i]))
  }

  /** `Strip` of a comma-free piece, which stays comma-free. */
  function StripCommaFree(piece: string): (token: string)
    requires Lacks(piece, ',')
    ensures token == Strip(piece) && Lacks(token, ',')
  {
    var token := Strip(piece);
    var i := SkipSpace(piece, 0);
    StripParts(piece);
    assert forall k :: 0 <= k < |token| ==> token[k] == piece[i + k];
    token
  }

  /** Tokenising a comma-separated list gives back its items, stripped. */
  lemma TokensOfList(items: seq<string>)
    requires |items| > 0
    requires forall i :: 0 <= i < |items| ==> Lacks(items[i], ',')
    ensures var tokens := Tokens(Join(",", items));
      |tokens| == |items| && forall i :: 0 <= i < |items| ==> tokens[i] == Strip(items[i])
  {
    SplitJoin(items, ',');
  }

  /** The example "1, 2, 3.5" has the three tokens "1", "2" and "3.5". */
  lemma TokensExample(numbers: string)
    requires numbers == "1, 2, 3.5"
    ensures Tokens(numbers) == ["1", "2", "3.5"]
  {
    ExampleTokensAreStrippedItems(numbers);
    StripPaddedDigits();
  }

  lemma ExampleTokensAreStrippedItems(numbers: string)
    requires numbers == "1, 2, 3.5"
    ensures var tokens := Tokens(numbers);
      |tokens| == 3 && tokens[0] == Strip("1") && tokens[1] == Strip(" 2") && tokens[2] == Strip(" 3.5")
  {
    var items := ["1", " 2", " 3.5"];
    assert Join(",", items) == numbers by {
      assert items[1..] == [" 2", " 3.5"] && items[1..][1..] == [" 3.5"];
    }
    assert forall i :: 0 <= i < |items| ==> Lacks(items[i], ',');
    TokensOfList(items);
  }

  lemma StripPaddedDigits()
    ensures Strip("1") == "1" && Strip(" 2") == "2" && Strip(" 3.5") == "3.5"
  {
    StripOfPadded("", "1", "");
    assert "" + "1" + "" == "1";
    StripOfPadded(" ", "2", "");
    assert " " + "2" + "" == " 2";
    StripOfPadded(" ", "3.5", "");
    assert " " + "3.5" + "" == " 3.5";
  }

  /** What `float()` makes of one token: a number, or a `ValueError` with
      its message. Also the result of converting a whole list. */
  datatype Parsed<F> = Parsed(value: F) | Invalid(message: string)

  /** Token `k` is the first one that does not convert. */
  predicate FirstInvalidAt<F>(tokens: seq<string>, parse: string -> Parsed<F>, k: int) {
    0 <= k < |tokens| && parse(tokens[k]).Invalid?
    && forall i :: 0 <= i < k ==> parse(tokens[i]).Parsed?
  }

  /** The list comprehension `[float(t) for t in tokens]`: every value in
      order when all tokens convert, otherwise the error of the first token
      that does not (the comprehension stops there). */
  function ParseAll<F>(tokens: seq<string>, parse: string -> Parsed<F>): (r: Parsed<seq<F>>)
    ensures r.Parsed? <==> forall i :: 0 <= i < |tokens| ==> parse(tokens[i]).Parsed?
    ensures r.Parsed? ==> (|r.value| == |tokens|
      && forall i :: 0 <= i < |tokens| ==> r.value[i] == parse(tokens[i]).value)
    ensures r.Invalid? ==>
      exists k :: FirstInvalidAt(tokens, parse, k) && parse(tokens[k]).message == r.message
  {
    if tokens == [] then Parsed([])
    else
      match parse(tokens[0])
      case Invalid(message) => Invalid(message)
      case Parsed(v) =>
        var rest := ParseAll(tokens[1..], parse);
        match rest
        case Invalid(message) =>
          ghost var k :| FirstInvalidAt(tokens[1..], parse, k) && parse(tokens[1..][k]).message == message;
          assert FirstInvalidAt(tokens, parse, k + 1);
          Invalid(message)
        case Parsed(vs) =>
          assert forall i :: 1 <= i < |tokens| ==> parse(tokens[i]) == parse(tokens[1..][i - 1]);
          Parsed([v] + vs)
  }

  const SumErrorLead := "Error calculating sum: "

  /** `calculate_sum`, with `float()` given as `parse` and the text of the
      float sum given as `render` (floating point is not modelled): the
      sum reply when every token converts, otherwise the error reply
      carrying the first conversion error. */
  function CalculateSum<F>(numbers: string, parse: string -> Parsed<F>, render: seq<F> -> string): (reply: string)
    ensures (forall i :: 0 <= i < |Tokens(numbers)| ==> parse(Tokens(numbers)[i]).Parsed?) ==>
      reply == "The sum is " + render(ParseAll(Tokens(numbers), parse).value) + "."
    ensures forall k :: FirstInvalidAt(Tokens(numbers), parse, k) ==>
      reply == SumErrorLead + parse(Tokens(numbers)[k]).message
  {
    ParseAllFirstInvalid(Tokens(numbers), parse);
    match ParseAll(Tokens(numbers), parse)
    case Parsed(values) => "The sum is " + render(values) + "."
    case Invalid(message) => SumErrorLead + message
  }

  /** The reply is the error reply exactly when some token fails to
      convert. */
  lemma SumErrorIffSomeTokenInvalid<F>(numbers: string, parse: string -> Parsed<F>, render: seq<F> -> string)
    ensures var tokens := Tokens(numbers);
      StartsWith(CalculateSum(numbers, parse, render), SumErrorLead)
      <==> exists i :: 0 <= i < |tokens| && parse(tokens[i]).Invalid?
  {
    var tokens := Tokens(numbers);
    var reply := CalculateSum(numbers, parse, render);
    var r := ParseAll(tokens, parse);
    if r.Parsed? {
      assert reply[0] == 'T' && SumErrorLead[0] == 'E';
    } else {
      var k :| FirstInvalidAt(tokens, parse, k) && parse(tokens[k]).message == r.message;
      assert parse(tokens[k]).Invalid?;
      assert reply[..|SumErrorLead|] == SumErrorLead;
    }
  }

  /** Only one token can be the first that does not convert. */
  lemma FirstInvalidUnique<F>(tokens: seq<string>, parse: string -> Parsed<F>, j: int, k: int)
    requires FirstInvalidAt(tokens, parse, j) && FirstInvalidAt(tokens, parse, k)
    ensures j == k
  {
  }

  /** When some token does not convert, converting the list fails with
      the error of the first such token; later tokens are never looked
      at. */
  lemma ParseAllFirstInvalid<F>(tokens: seq<string>, parse: string -> Parsed<F>)
    ensures forall k :: FirstInvalidAt(tokens, parse, k) ==>
      ParseAll(tokens, parse) == Invalid(parse(tokens[k]).message)
  {
    forall k | FirstInvalidAt(tokens, parse, k)
      ensures ParseAll(tokens, parse) == Invalid(parse(tokens[k]).message)
    {
      var r := ParseAll(tokens, parse);
      assert !r.Parsed?;
      var j :| FirstInvalidAt(tokens, parse, j) && parse(tokens[j]).message == r.message;
      FirstInvalidUnique(tokens, parse, j, k);
    }
  }

  /** Converting tokens that all convert gives their values in order. */
  lemma ParseAllOfValid<F>(tokens: seq<string>, parse: string -> Parsed<F>, values: seq<F>)
    requires |values| == |tokens|
    requires forall i :: 0 <= i < |values| ==> parse(tokens[i]) == Parsed(values[i])
    ensures ParseAll(tokens, parse) == Parsed(values)
  {
    var r := ParseAll(tokens, parse);
    assert r.Parsed?;
    assert r.value == values;
  }

  /** When every token converts, the reply renders all their values, in
      token order. */
  lemma SumOfValidTokens<F>(numbers: string, parse: string -> Parsed<F>, render: seq<F> -> string, values: seq<F>)
    requires |values| == |Tokens(numbers)|
    requires forall i :: 0 <= i < |values| ==> parse(Tokens(numbers)[i]) == Parsed(values[i])
    ensures CalculateSum(numbers, parse, render) == "The sum is " + render(values) + "."
  {
    ParseAllOfValid(Tokens(numbers), parse, values);
  }

  // ---- stub tools ----

  /** `add_reminder`: nothing is stored; the reply repeats both arguments. */
  function AddReminder(reminder: string, time: string): (reply: string)
    ensures StartsWith(reply, "Reminder '" + reminder + "' set for ")
    ensures reply[|"Reminder '" + reminder + "' set for "|..] == time + "."
  {
    "Reminder '" + reminder + "' set for " + time + "."
  }

  /** Two different reminders can get the same reply: a quote inside the
      reminder text makes the reply ambiguous. */
  lemma AddReminderReplyAmbiguous()
    ensures exists r1, t1, r2, t2 :: (r1, t1) != (r2, t2) && AddReminder(r1, t1) == AddReminder(r2, t2)
  {
    var mid := "' set for ";
    var r2, t1 := "a", "c";
    var r1, t2 := r2 + mid + "b", "b" + mid + t1;
    assert |r1| != |r2|;
    assert AddReminder(r1, t1) == "Reminder '" + r2 + mid + "b" + mid + t1 + "." == AddReminder(r2, t2);
  }

  /** `list_reminders`: always reports that no reminder exists, since
      `add_reminder` keeps none. */
  function ListReminders(): (reply: string)
    ensures reply == "You have no reminders set."
  {
    "You have no reminders set."
  }

  /** `delete_reminder`: nothing is deleted; the reply names the ID. */
  function DeleteReminder(reminderId: string): (reply: string)
    ensures StartsWith(reply, "Reminder with ID ")
    ensures reply[|"Reminder with ID "|..] == reminderId + " deleted."
  {
    "Reminder with ID " + reminderId + " deleted."
  }

  /** The ID can be read back from the reply: different IDs give
      different replies. */
  lemma DeleteReminderNamesId(id1: string, id2: string)
    ensures DeleteReminder(id1) == DeleteReminder(id2) <==> id1 == id2
  {
    var lead := "Reminder with ID ";
    if DeleteReminder(id1) == DeleteReminder(id2) {
      var r := DeleteReminder(id1);
      assert |id1| == |id2|;
      assert r[|lead|..|lead| + |id1|] == id1;
      assert DeleteReminder(id2)[|lead|..|lead| + |id2|] == id2;
    }
  }

  /** `notify_user`: nothing is shown; the reply is a fixed lead-in
      followed by exactly the notification. */
  function NotifyUser(notification: string): (reply: string)
    ensures StartsWith(reply, "User notified with message: ")
    ensures reply[|"User notified with message: "|..] == notification
  {
    "User notified with message: " + notification
  }

  /** `translate_text`: nothing is translated; the reply repeats the text
      and the target language. */
  function TranslateText(text: string, targetLanguage: string): (reply: string)
    ensures StartsWith(reply, "Translated '" + text + "' to ")
    ensures reply[|"Translated '" + text + "' to "|..] == targetLanguage + "."
  {
    "Translated '" + text + "' to " + targetLanguage + "."
  }

  /** As with reminders, a quote in the text makes the reply ambiguous. */
  lemma TranslateTextReplyAmbiguous()
    ensures exists x1, l1, x2, l2 :: (x1, l1) != (x2, l2) && TranslateText(x1, l1) == TranslateText(x2, l2)
  {
    var mid := "' to ";
    var x2, l1 := "a", "c";
    var x1, l2 := x2 + mid + "b", "b" + mid + l1;
    assert |x1| != |x2|;
    assert TranslateText(x1, l1) == "Translated '" + x2 + mid + "b" + mid + l1 + "." == TranslateText(x2, l2);
  }
}
