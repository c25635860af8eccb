/**
 * The chat model as the services see it. `AI:Provider` selects between the mocked "Demo" mode
 * and a real model; a real model is a function from the prompt to the reply text, where
 * `None` stands for a call that throws (network failure, refused request, empty reply).
 */
module Chat {
  import opened Wrappers
  import opened Text
  import opened Collections
  import opened Domain

  /** What each prompt is built from; the prompt templates' wording is not modelled. */
  datatype Prompt =
    | ViolationsRequest(standards: seq<Standard>, batch: seq<CodeFile>)
    | BugsRequest(batch: seq<CodeFile>)
    | SummaryRequest(folderStructure: Tally<string>, fileTypes: Tally<string>, keyFiles: seq<string>)
    | MarkdownRequest(content: string)
    | CodebaseRequest(files: seq<CodeFile>)

  /** `_configuration["AI:Provider"] ?? "Demo"`. */
  function ProviderName(setting: Option<string>): (r: string)
    ensures setting.Some? ==> r == setting.value
  {
    if setting.Some? then setting.value else "Demo"
  }

  /** `provider.Equals("Demo", StringComparison.OrdinalIgnoreCase)`. */
  predicate IsDemo(setting: Option<string>)
  {
    Lower(ProviderName(setting)) == "demo"
  }

  /** An absent setting means demo mode, and the spelling of "demo" does not matter. */
  lemma DemoByDefault(s: string)
    ensures IsDemo(None)
    ensures IsDemo(Some(s)) <==> Lower(s) == "demo"
  {
    assert Lower("Demo") == "demo";
  }
}
