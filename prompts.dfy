/**
 * The prompt assembler of app/models/prompts.py: the `PromptBuilder` that
 * holds the two loaded templates as system messages, the greeting prompt
 * (query cut to its first ten words) and the user-query prompt (template plus
 * stripped query).
 */
module Prompts {
  import opened Outcomes
  import opened Text

  /** The langchain message kinds: `SystemMessage`, `HumanMessage`, `AIMessage`. */
  datatype Role = System | Human | Ai

  /** A chat message; its `content` is always text in this model. */
  datatype Message = Message(role: Role, content: string)

  /** A built `PromptBuilder`: both template files have been read and each
      text is wrapped, as it is, in a system message. */
  datatype PromptBuilder = PromptBuilder(greetingBasePrompt: Message, systemBasePrompt: Message)

  const GREETING_NOT_FOUND: string := "Greeting prompt file not found: "
  const SYSTEM_NOT_FOUND: string := "System prompt file not found: "

  /** `PromptBuilder(greeting_prompt_file_path, system_prompt_file_path)`.
      `readText(path)` stands for `Path(path).read_text(encoding="utf-8")`:
      `None` is the `FileNotFoundError` the constructor turns into a
      `ValueError` naming the missing path. The greeting file is read first. */
  function NewPromptBuilder(greetingPath: string, systemPath: string, readText: string -> Option<string>)
    : (r: Result<PromptBuilder, string>)
    ensures r.Success? <==> readText(greetingPath).Some? && readText(systemPath).Some?
    ensures readText(greetingPath).None? ==> r == Failure(GREETING_NOT_FOUND + greetingPath)
    ensures readText(greetingPath).Some? && readText(systemPath).None? ==>
              r == Failure(SYSTEM_NOT_FOUND + systemPath)
    ensures r.Success? ==>
              && r.value.greetingBasePrompt == Message(System, readText(greetingPath).value)
              && r.value.systemBasePrompt == Message(System, readText(systemPath).value)
  {
    match readText(greetingPath)
    case None => Failure(GREETING_NOT_FOUND + greetingPath)
    case Some(greeting) =>
      match readText(systemPath)
      case None => Failure(SYSTEM_NOT_FOUND + systemPath)
      case Some(system) => Success(PromptBuilder(Message(System, greeting), Message(System, system)))
  }

  // ------------------------------------------------------------ greeting

  /** `max_query_words` in `greeting_prompt`. */
  const MAX_QUERY_WORDS: nat := 10

  function Min(a: nat, b: nat): nat {
    if a <= b then a else b
  }

  /** `" ".join(user_query.strip().split()[:max_query_words])`. */
  function TruncateQuery(userQuery: string): string {
    Join(Prefix(Split(Strip(userQuery)), MAX_QUERY_WORDS))
  }

  /** The character of a decimal digit. */
  function DigitChar(d: nat): char
    requires d < 10
  {
    ('0' as int + d) as char
  }

  /** How an f-string renders a non-negative `int`. */
  function DecimalString(n: nat): string
    decreases n
  {
    if n < 10 then [DigitChar(n)] else DecimalString(n / 10) + [DigitChar(n % 10)]
  }

  predicate AllDigits(s: string) {
    forall i :: 0 <= i < |s| ==> '0' <= s[i] <= '9'
  }

  /** The number a string of decimal digits denotes. */
  function DecimalValue(s: string): nat
    requires AllDigits(s)
    decreases |s|
  {
    if s == [] then 0 else DecimalValue(s[..|s| - 1]) * 10 + (s[|s| - 1] as int - '0' as int)
  }

  /** The human message text of the greeting prompt. */
  function GreetingContent(userQuery: string): string {
    "The first " + DecimalString(MAX_QUERY_WORDS) + " words of the user's query are: "
      + TruncateQuery(userQuery)
  }

  /** `PromptBuilder.greeting_prompt`. */
  function GreetingPrompt(pb: PromptBuilder, userQuery: string): seq<Message> {
    [pb.greetingBasePrompt, Message(Human, GreetingContent(userQuery))]
  }

  /** `PromptBuilder.user_query_prompt`. */
  function UserQueryPrompt(pb: PromptBuilder, userQuery: string): seq<Message> {
    [pb.systemBasePrompt, Message(Human, Strip(userQuery))]
  }

  // ------------------------------------------------------------ properties

  /** The truncated query holds the first `min(10, n)` tokens of the query,
      in order and unchanged, where `n` is the query's token count. */
  lemma TruncateQueryTokens(userQuery: string)
    ensures var n := |Split(userQuery)|;
      && Split(TruncateQuery(userQuery)) == Split(userQuery)[..Min(MAX_QUERY_WORDS, n)]
      && |Split(TruncateQuery(userQuery))| <= MAX_QUERY_WORDS
  {
    var ws := Split(Strip(userQuery));
    SplitStrip(userQuery);
    SplitWords(Strip(userQuery));
    var kept := Prefix(ws, MAX_QUERY_WORDS);
    assert AllWords(kept);
    SplitJoin(kept);
  }

  /** The truncated query has no whitespace at either end, exactly one space
      between tokens, and stripping or re-truncating it changes nothing. */
  lemma TruncateQueryLayout(userQuery: string)
    ensures SingleSpaced(TruncateQuery(userQuery))
    ensures Stripped(TruncateQuery(userQuery))
    ensures Strip(TruncateQuery(userQuery)) == TruncateQuery(userQuery)
    ensures TruncateQuery(TruncateQuery(userQuery)) == TruncateQuery(userQuery)
  {
    var t := TruncateQuery(userQuery);
    var kept := Prefix(Split(Strip(userQuery)), MAX_QUERY_WORDS);
    SplitWords(Strip(userQuery));
    assert AllWords(kept);
    JoinSingleSpaced(kept);
    assert t == [] + t + [];
    StripCharacterisation([], t, []);
    TruncateQueryTokens(userQuery);
    assert Prefix(Split(t), MAX_QUERY_WORDS) == Split(t);
    SplitJoin(kept);
  }

  /** `greeting_prompt` returns the greeting template followed by one human
      message, which always announces "10" words, however many the query has,
      and then quotes the truncated query. */
  lemma GreetingPromptSpec(pb: PromptBuilder, userQuery: string)
    ensures var p := GreetingPrompt(pb, userQuery);
      && |p| == 2
      && p[0] == pb.greetingBasePrompt
      && p[1].role == Human
      && p[1].content == "The first " + "10" + " words of the user's query are: " + TruncateQuery(userQuery)
  {
    DecimalTen();
  }

  /** The rendering of `n` is a non-empty string of decimal digits that
      reads back as `n` and starts with `0` only when `n` is zero. */
  lemma {:induction false} DecimalStringReadsBack(n: nat)
    ensures AllDigits(DecimalString(n))
    ensures DecimalValue(DecimalString(n)) == n
    ensures |DecimalString(n)| >= 1
    ensures DecimalString(n)[0] == '0' ==> n == 0
    decreases n
  {
    var s := DecimalString(n);
    if n < 10 {
      assert s[..|s| - 1] == [];
    } else {
      var high := DecimalString(n / 10);
      DecimalStringReadsBack(n / 10);
      assert s == high + [DigitChar(n % 10)];
      assert s[..|s| - 1] == high;
      assert s[0] == high[0];
    }
  }

  /** The word limit renders as the two characters "10". */
  lemma DecimalTen()
    ensures DecimalString(MAX_QUERY_WORDS) == "10"
  {
    assert DecimalString(1) == "1";
    assert DecimalString(MAX_QUERY_WORDS) == DecimalString(1) + [DigitChar(0)];
  }

  /** `user_query_prompt` returns the system template followed by the query
      stripped of its outer whitespace, interior kept. Building the prompt
      again from its own human content gives the same prompt. */
  lemma UserQueryPromptSpec(pb: PromptBuilder, userQuery: string)
    ensures var p := UserQueryPrompt(pb, userQuery);
      && |p| == 2
      && p[0] == pb.systemBasePrompt
      && p[1].role == Human
      && Stripped(p[1].content)
      && p[1].content == userQuery[LeadingSpace(userQuery)..LeadingSpace(userQuery) + |p[1].content|]
      && AllSpace(userQuery[..LeadingSpace(userQuery)])
      && AllSpace(userQuery[LeadingSpace(userQuery) + |p[1].content|..])
      && UserQueryPrompt(pb, p[1].content) == p
  {
    StripSpec(userQuery);
    StripIdempotent(userQuery);
  }

  /** A query already written as single-spaced tokens keeps its first ten
      tokens (all of them when it has ten or fewer), e.g. "one two ... twelve"
      becomes "one two ... ten". */
  lemma TruncateQueryOfJoin(ws: seq<string>)
    requires AllWords(ws)
    ensures TruncateQuery(Join(ws)) == Join(ws[..Min(MAX_QUERY_WORDS, |ws|)])
  {
    var q := Join(ws);
    JoinSingleSpaced(ws);
    assert q == [] + q + [];
    StripCharacterisation([], q, []);
    SplitJoin(ws);
  }
}
