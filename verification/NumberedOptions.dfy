/** Quick replies as numbered lines of text, and the answers to them. */
module NumberedOptions {
  import opened Options
  import opened Decimal
  import opened Lexical

  datatype QuickReply = QuickReply(title: string, payload: string)

  /** `i + 1. title` */
  function Line(i: nat, title: string): string {
    Print(i + 1) + ". " + title
  }

  function Lines(options: seq<QuickReply>, from: nat): string
    requires from <= |options|
    decreases |options| - from
  {
    if from == |options| then ""
    else if from + 1 == |options| then Line(from, options[from].title)
    else Line(from, options[from].title) + "\n" + Lines(options, from + 1)
  }

  /** `adaptForTextOnly`, without a carousel and without buttons */
  function AdaptForTextOnly(text: string, options: seq<QuickReply>): string {
    if options == [] then text
    else if text == "" then Lines(options, 0)
    else text + "\n\n" + Lines(options, 0)
  }

  /** parseInt in base ten: an optional sign and the digits that follow, as far as they go. */
  function ParseInt(s: string): Option<int> {
    var signed := s != [] && (s[0] == '-' || s[0] == '+');
    var digits := DigitPrefix(if signed then s[1..] else s);
    if digits == [] then None
    else Some(if signed && s[0] == '-' then -(Value(digits) as int) else Value(digits))
  }

  /** `parseNumberedResponse` */
  function ParseNumberedResponse(text: string, options: seq<QuickReply>): Option<string> {
    var num := ParseInt(Trim(text));
    if num.None? || num.value < 1 || num.value > |options| then None else Some(options[num.value - 1].payload)
  }

  /** The number is read, whatever follows it that is not a digit. */
  lemma NumberIsRead(n: nat, rest: string)
    requires rest != [] ==> !IsDigit(rest[0])
    ensures ParseInt(Trim(Print(n) + rest)) == Some(n)
  {
    hide TrimEnd, Print, Value, DigitPrefix;
    var digits := Print(n);
    var s := digits + rest;
    assert s[0] == digits[0] && IsDigit(digits[0]);
    assert TrimStart(s) == s;
    TrimEndKeeps(digits, rest);
    var kept := TrimEnd(s)[|digits|..];
    assert TrimEnd(s) == digits + kept;
    assert kept != [] ==> kept[0] == rest[0];
    PrefixStops(digits, kept);
    ReadBack(n);
  }

  /** Trimming the end leaves a front that ends in a digit, and a front of what follows it. */
  lemma {:induction false} TrimEndKeeps(front: string, rest: string)
    requires front != [] && IsDigit(front[|front| - 1])
    ensures front <= TrimEnd(front + rest) <= front + rest
    decreases |rest|
  {
    if rest != [] {
      assert (front + rest)[..|front + rest| - 1] == front + rest[..|rest| - 1];
      if IsBlank((front + rest)[|front + rest| - 1]) {
        TrimEndKeeps(front, rest[..|rest| - 1]);
      }
    } else {
      assert front + rest == front;
    }
  }

  /** Answering with the number of an option, or with its whole printed line, gives that option's payload. */
  lemma AnswersReadBack(options: seq<QuickReply>, i: nat)
    requires i < |options|
    ensures ParseNumberedResponse(Print(i + 1), options) == Some(options[i].payload)
    ensures ParseNumberedResponse(Line(i, options[i].title), options) == Some(options[i].payload)
  {
    hide Print, Trim, ParseInt;
    NumberIsRead(i + 1, "");
    assert Print(i + 1) + "" == Print(i + 1);
    NumberIsRead(i + 1, ". " + options[i].title);
    assert Line(i, options[i].title) == Print(i + 1) + (". " + options[i].title);
  }

  /** A number answers exactly when it is an option's, whatever follows it that is not a digit. */
  lemma NumbersAnswer(options: seq<QuickReply>, n: nat, rest: string)
    requires rest != [] ==> !IsDigit(rest[0])
    ensures ParseNumberedResponse(Print(n) + rest, options) == if 1 <= n <= |options| then Some(options[n - 1].payload) else None
  {
    hide Print, Trim, ParseInt;
    NumberIsRead(n, rest);
  }

  /** Text that is blank or begins with neither a digit nor a sign is no answer, and neither is a number below zero. */
  lemma OtherTextIsNoAnswer(options: seq<QuickReply>, text: string)
    ensures Trim(text) == "" ==> ParseNumberedResponse(text, options).None?
    ensures Trim(text) != "" && !IsDigit(Trim(text)[0]) && Trim(text)[0] != '+' ==> ParseNumberedResponse(text, options).None?
  {
    hide Trim;
  }

  predicate IsLineOf(line: string, text: string, before: string, after: string) {
    && text == before + line + after
    && (before == "" || before[|before| - 1] == '\n') && (after == "" || after[0] == '\n')
  }

  lemma {:induction false} LineIsPrinted(options: seq<QuickReply>, from: nat, i: nat) returns (before: string, after: string)
    requires from <= i < |options|
    ensures IsLineOf(Line(i, options[i].title), Lines(options, from), before, after)
    decreases i - from
  {
    hide Line;
    var first := Line(from, options[from].title);
    if from == i {
      before, after := "", if from + 1 == |options| then "" else "\n" + Lines(options, from + 1);
    } else {
      var b, a := LineIsPrinted(options, from + 1, i);
      before, after := first + "\n" + b, a;
    }
  }

  /** Each option stands on a line of its own in the adapted text, and that line is an answer that gives its payload. */
  lemma PrintedLineAnswers(text: string, options: seq<QuickReply>, i: nat) returns (line: string, before: string, after: string)
    requires i < |options|
    ensures IsLineOf(line, AdaptForTextOnly(text, options), before, after)
    ensures ParseNumberedResponse(line, options) == Some(options[i].payload)
  {
    hide Lines, Line, ParseNumberedResponse, IsLineOf;
    line := Line(i, options[i].title);
    AnswersReadBack(options, i);
    before, after := LineIsPrinted(options, 0, i);
    if text != "" {
      Below(text + "\n\n", line, Lines(options, 0), before, after);
      before := text + "\n\n" + before;
    }
  }

  lemma Below(head: string, line: string, body: string, before: string, after: string)
    requires head != "" && head[|head| - 1] == '\n' && IsLineOf(line, body, before, after)
    ensures IsLineOf(line, head + body, head + before, after)
  {
    assert head + body == head + before + line + after;
  }
}
