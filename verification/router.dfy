/**
 * The command grammar: `./ai <prompt>` asks for a chat completion,
 * `./img <prompt>` for an image, and any other text is ignored.
 * Prefixes are case-sensitive, `./ai` is tried first, and no word boundary
 * is required after the prefix.
 */
module Router {
  import opened JsString

  const CompletionPrefix: string := "./ai"
  const ImagePrefix: string := "./img"

  datatype Command = Ask(prompt: string) | Draw(prompt: string) | Ignore

  /** `text.replace(prefix, '').trim()`. */
  function PromptAfter(text: string, prefix: string): string {
    Trim(ReplaceFirst(text, prefix, ""))
  }

  /** The prefix test and prompt extraction of the handler's `try` block. */
  function Route(text: string): (c: Command)
    ensures c.Ask? <==> StartsWith(text, CompletionPrefix)
    ensures c.Draw? <==> !StartsWith(text, CompletionPrefix) && StartsWith(text, ImagePrefix)
    ensures c.Ignore? <==> !StartsWith(text, CompletionPrefix) && !StartsWith(text, ImagePrefix)
    ensures c.Ask? ==> c.prompt == Trim(text[|CompletionPrefix|..])
    ensures c.Draw? ==> c.prompt == Trim(text[|ImagePrefix|..])
  {
    if StartsWith(text, CompletionPrefix) then
      PromptIsTrimmedRemainder(text, CompletionPrefix);
      Ask(PromptAfter(text, CompletionPrefix))
    else if StartsWith(text, ImagePrefix) then
      PromptIsTrimmedRemainder(text, ImagePrefix);
      Draw(PromptAfter(text, ImagePrefix))
    else
      Ignore
  }

  /** Since the text starts with the prefix, `replace` removes exactly that
      leading copy, so the prompt is the rest of the text, trimmed. */
  lemma PromptIsTrimmedRemainder(text: string, prefix: string)
    requires StartsWith(text, prefix)
    ensures PromptAfter(text, prefix) == Trim(text[|prefix|..])
  {
    ReplaceLeadingOccurrence(text, prefix, "");
    assert "" + text[|prefix|..] == text[|prefix|..];
  }

  /** The prompt has no surrounding whitespace, and trimming it again changes nothing. */
  lemma PromptIsTrimmed(text: string)
    ensures !Route(text).Ignore? ==> IsTrimmed(Route(text).prompt)
    ensures !Route(text).Ignore? ==> Trim(Route(text).prompt) == Route(text).prompt
  {
    if !Route(text).Ignore? {
      TrimFixesTrimmed(Route(text).prompt);
    }
  }

  /** Parsing inverts writing: a prefix, whitespace, a trimmed prompt and
      more whitespace route back to exactly that prompt. */
  lemma RouteRoundTrip(lead: string, prompt: string, trail: string)
    requires AllWhitespace(lead) && AllWhitespace(trail) && IsTrimmed(prompt)
    ensures Route(CompletionPrefix + lead + prompt + trail) == Ask(prompt)
    ensures Route(ImagePrefix + lead + prompt + trail) == Draw(prompt)
  {
    AfterPrefix(CompletionPrefix, lead, prompt, trail);
    AfterPrefix(ImagePrefix, lead, prompt, trail);
    assert (ImagePrefix + lead + prompt + trail)[3] != CompletionPrefix[3];
    TrimSurrounded(lead, prompt, trail);
  }

  /** A text written as a prefix and three parts starts with the prefix,
      and what follows the prefix is the three parts. */
  lemma AfterPrefix(prefix: string, lead: string, prompt: string, trail: string)
    ensures StartsWith(prefix + lead + prompt + trail, prefix)
    ensures (prefix + lead + prompt + trail)[|prefix|..] == lead + prompt + trail
  {
    var t := prefix + lead + prompt + trail;
    assert t[..|prefix|] == prefix;
  }

  /** Every routed prompt is recovered from the text after the prefix: the
      text is the prefix, a whitespace run, the prompt and a whitespace run. */
  lemma RouteDecomposes(text: string)
    ensures Route(text).Ask? ==> exists i :: TrimOf(text[|CompletionPrefix|..], Route(text).prompt, i)
    ensures Route(text).Draw? ==> exists i :: TrimOf(text[|ImagePrefix|..], Route(text).prompt, i)
  {
  }

  /** No word boundary: text glued to the prefix is the prompt, so
      `./aimage` is a completion request for `mage`. */
  lemma NoWordBoundary(rest: string)
    requires IsTrimmed(rest)
    ensures Route(CompletionPrefix + rest) == Ask(rest)
  {
    var text := CompletionPrefix + rest;
    assert text == CompletionPrefix + [] + rest + [];
    RouteRoundTrip([], rest, []);
  }

  /** A bare or whitespace-only command is still routed, with an empty prompt. */
  lemma EmptyPromptIsForwarded(spaces: string)
    requires AllWhitespace(spaces)
    ensures Route(CompletionPrefix + spaces) == Ask("")
    ensures Route(ImagePrefix + spaces) == Draw("")
  {
    assert CompletionPrefix + spaces + "" + "" == CompletionPrefix + spaces;
    assert ImagePrefix + spaces + "" + "" == ImagePrefix + spaces;
    RouteRoundTrip(spaces, "", "");
  }
}
