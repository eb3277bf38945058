/** How `buildSystemPrompt` assembles the system prompt handed to the
    assistant session: the fixed text of a conversation profile, with the
    user's own context and, optionally, the instructions for using web
    search. */
module PromptBuilder {

  /** The fixed text of one profile, one field per section of the prompt. */
  datatype PromptParts = PromptParts(
    intro: string,
    formatRequirements: string,
    searchUsage: string,
    content: string,
    outputInstructions: string)

  /** The separators `buildSystemPrompt` places between the parts. */
  const Gap := "\n\n"
  const ContextHeader := "\n\nUser-provided context\n-----\n"
  const ContextFooter := "\n-----\n\n"

  /** `sections.join('')`: the sections written one after another. */
  function Concat(sections: seq<string>): string
  {
    if sections == [] then [] else Concat(sections[..|sections| - 1]) + sections[|sections| - 1]
  }

  /** Joining two lists of sections is joining each and writing one after the other. */
  lemma {:induction false} ConcatAppend(a: seq<string>, b: seq<string>)
    ensures Concat(a + b) == Concat(a) + Concat(b)
    decreases |b|
  {
    if b == [] {
      assert a + b == a;
    } else {
      var b' := b[..|b| - 1];
      assert (a + b)[..|a + b| - 1] == a + b';
      ConcatAppend(a, b');
    }
  }

  lemma ConcatPair(x: string, y: string)
    ensures Concat([x, y]) == x + y
  {
    assert [x, y][..1] == [x];
    assert [x][..0] == [];
    assert Concat([x]) == [] + x == x;
  }

  lemma ConcatTriple(x: string, y: string, z: string)
    ensures Concat([x, y, z]) == x + y + z
  {
    assert [x, y, z][..2] == [x, y];
    ConcatPair(x, y);
  }

  lemma ConcatTail(parts: PromptParts, customPrompt: string)
    ensures Concat([Gap, parts.content, ContextHeader, customPrompt, ContextFooter, parts.outputInstructions])
         == Gap + parts.content + ContextHeader + customPrompt + ContextFooter + parts.outputInstructions
  {
    ConcatAppend([Gap, parts.content, ContextHeader], [customPrompt, ContextFooter, parts.outputInstructions]);
    assert [Gap, parts.content, ContextHeader] + [customPrompt, ContextFooter, parts.outputInstructions]
        == [Gap, parts.content, ContextHeader, customPrompt, ContextFooter, parts.outputInstructions];
    ConcatTriple(Gap, parts.content, ContextHeader);
    ConcatTriple(customPrompt, ContextFooter, parts.outputInstructions);
  }

  /** The prompt for `parts`, as one concatenation: the independent reference
      for the section list that `BuildSystemPrompt` assembles. */
  function SystemPrompt(parts: PromptParts, customPrompt: string, searchEnabled: bool): string
  {
    parts.intro + Gap + parts.formatRequirements
    + (if searchEnabled then Gap + parts.searchUsage else "")
    + Gap + parts.content + ContextHeader + customPrompt + ContextFooter + parts.outputInstructions
  }

  /** `buildSystemPrompt`: collects the sections in order, the search section
      only when search is enabled, and joins them. */
  method BuildSystemPrompt(parts: PromptParts, customPrompt: string := "", googleSearchEnabled: bool := true)
    returns (prompt: string)
    ensures prompt == SystemPrompt(parts, customPrompt, googleSearchEnabled)
  {
    var sections := [parts.intro, Gap, parts.formatRequirements];
    ghost var text := parts.intro + Gap + parts.formatRequirements;
    ConcatTriple(parts.intro, Gap, parts.formatRequirements);
    if googleSearchEnabled {
      ConcatAppend(sections, [Gap, parts.searchUsage]);
      ConcatPair(Gap, parts.searchUsage);
      sections := sections + [Gap, parts.searchUsage];
      text := text + (Gap + parts.searchUsage);
    }
    var tail := [Gap, parts.content, ContextHeader, customPrompt, ContextFooter, parts.outputInstructions];
    ConcatTail(parts, customPrompt);
    ConcatAppend(sections, tail);
    sections := sections + tail;
    prompt := Concat(sections);
    assert prompt == text + (Gap + parts.content + ContextHeader + customPrompt + ContextFooter + parts.outputInstructions);
  }

  /** Every prompt opens with the profile's intro and closes with its output instructions. */
  lemma PromptFraming(parts: PromptParts, customPrompt: string, searchEnabled: bool)
    ensures var p := SystemPrompt(parts, customPrompt, searchEnabled);
      && |parts.intro| + |parts.outputInstructions| <= |p|
      && p[..|parts.intro|] == parts.intro
      && p[|p| - |parts.outputInstructions|..] == parts.outputInstructions
  {
  }

  /** The prompt is exactly as long as its parts plus the separators: four
      gaps of two characters (one of them only with search), the 30-character
      context header and the 8-character footer. */
  lemma PromptLength(parts: PromptParts, customPrompt: string, searchEnabled: bool)
    ensures |SystemPrompt(parts, customPrompt, searchEnabled)|
         == |parts.intro| + |parts.formatRequirements| + |parts.content| + |customPrompt|
            + |parts.outputInstructions| + 42
            + (if searchEnabled then 2 + |parts.searchUsage| else 0)
  {
  }

  /** Enabling search inserts the gap and the search-usage text right after
      the format requirements and changes nothing else. */
  lemma SearchSectionInsertion(parts: PromptParts, customPrompt: string)
    ensures var on := SystemPrompt(parts, customPrompt, true);
      var off := SystemPrompt(parts, customPrompt, false);
      var k := |parts.intro| + |Gap| + |parts.formatRequirements|;
      && k <= |off|
      && on == off[..k] + Gap + parts.searchUsage + off[k..]
      && |on| == |off| + 2 + |parts.searchUsage|
  {
    var head := parts.intro + Gap + parts.formatRequirements;
    var rest := Gap + parts.content + ContextHeader + customPrompt + ContextFooter + parts.outputInstructions;
    var off := SystemPrompt(parts, customPrompt, false);
    var on := SystemPrompt(parts, customPrompt, true);
    assert off == head + rest;
    assert on == head + (Gap + parts.searchUsage) + rest;
    assert off[..|head|] == head;
    assert off[|head|..] == rest;
    assert head + (Gap + parts.searchUsage) + rest == head + Gap + parts.searchUsage + rest;
  }

  /** The user's context appears verbatim between the context header and
      footer, at an offset that depends only on the profile and the search flag. */
  lemma CustomPromptPlacement(parts: PromptParts, customPrompt: string, searchEnabled: bool)
    ensures var p := SystemPrompt(parts, customPrompt, searchEnabled);
      var at := |p| - |parts.outputInstructions| - |ContextFooter| - |customPrompt|;
      && |ContextHeader| <= at
      && at == |SystemPrompt(parts, "", searchEnabled)| - |parts.outputInstructions| - |ContextFooter|
      && p[at - |ContextHeader|..at] == ContextHeader
      && p[at..at + |customPrompt|] == customPrompt
      && p[at + |customPrompt|..] == ContextFooter + parts.outputInstructions
  {
    var p := SystemPrompt(parts, customPrompt, searchEnabled);
    var front := parts.intro + Gap + parts.formatRequirements
      + (if searchEnabled then Gap + parts.searchUsage else "") + Gap + parts.content;
    var back := ContextFooter + parts.outputInstructions;
    assert p == front + ContextHeader + customPrompt + back;
    PromptLength(parts, customPrompt, searchEnabled);
    PromptLength(parts, "", searchEnabled);
  }
}
