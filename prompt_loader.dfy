/**
 * `PromptLoader`: the prompt templates the language-model client sends,
 * read from a YAML file. Parsing is a parameter; what is modelled is what
 * the loader accepts as a prompts file and how it looks a prompt up.
 */
module PromptLoading {
  import opened Wrappers
  import opened Text

  /** A parsed YAML value; a mapping keeps its entries in file order, keys being strings. */
  datatype Yaml =
    | Null
    | Bool(b: bool)
    | Int(i: int)
    | Str(s: string)
    | List(items: seq<Yaml>)
    | Dict(entries: seq<(string, Yaml)>)

  /** Python's truth value of the parsed document. */
  predicate Truthy(v: Yaml)
  {
    match v
    case Null => false
    case Bool(b) => b
    case Int(i) => i != 0
    case Str(s) => s != ""
    case List(items) => items != []
    case Dict(entries) => entries != []
  }

  /** The value a key maps to: a later duplicate key overrides an earlier one, as in YAML loading. */
  function Lookup(entries: seq<(string, Yaml)>, key: string): (r: Option<Yaml>)
    ensures r.Some? <==> exists k :: 0 <= k < |entries| && entries[k].0 == key
    ensures r.Some? ==> exists k :: 0 <= k < |entries| && entries[k] == (key, r.value)
  {
    if entries == [] then None
    else
      var n := |entries| - 1;
      assert forall k :: 0 <= k < n ==> entries[..n][k] == entries[k];
      if entries[n].0 == key then Some(entries[n].1) else Lookup(entries[..n], key)
  }

  /** `dict.keys()`: each key once, where it first appears. */
  function Keys(entries: seq<(string, Yaml)>): (r: seq<string>)
    ensures forall key :: key in r <==> Lookup(entries, key).Some?
  {
    var names := seq(|entries|, k requires 0 <= k < |entries| => entries[k].0);
    assert forall k :: 0 <= k < |entries| ==> names[k] == entries[k].0;
    Dedup(names)
  }

  datatype PromptError =
    | FileNotFound(message: string)
    | KeyError(message: string)
    | ValueError(message: string)

  // ------------------------------------------------------------ loading

  /**
   * `_load_prompts` after the file was read: a missing file, a YAML error, an
   * empty document or a document that is not a mapping are rejected; the
   * mapping itself is returned otherwise.
   */
  function LoadPrompts(path: string, exists_: bool, parsed: Result<Yaml, string>)
    : (r: Result<seq<(string, Yaml)>, PromptError>)
    ensures r.Success? <==> exists_ && parsed.Success? && parsed.value.Dict? && parsed.value.entries != []
    ensures r.Success? ==> parsed.Success? && parsed.value == Dict(r.value)
    ensures !exists_ ==> r.Failure? && r.error.FileNotFound?
    ensures exists_ && r.Failure? ==> r.error.ValueError?
  {
    if !exists_ then
      Failure(FileNotFound("Prompts file not found: " + path
                           + ". Please ensure prompts.yaml exists in the project root."))
    else
      match parsed
      case Failure(e) => Failure(ValueError("Invalid YAML in prompts file: " + e))
      case Success(data) =>
        if !Truthy(data) then Failure(ValueError("Prompts file is empty"))
        else if !data.Dict? then Failure(ValueError("Prompts file must contain a dictionary"))
        else Success(data.entries)
  }

  /** An empty document, or an empty mapping, is reported as empty rather than as a non-mapping. */
  lemma EmptyDocumentIsEmpty(path: string, data: Yaml)
    requires data == Null || data == Dict([]) || data == List([]) || data == Str("")
    ensures LoadPrompts(path, true, Success(data)) == Failure(ValueError("Prompts file is empty"))
  {
  }

  /** A non-empty list is rejected as not being a mapping. */
  lemma ListIsNotPrompts(path: string, items: seq<Yaml>)
    requires items != []
    ensures LoadPrompts(path, true, Success(List(items))) == Failure(ValueError("Prompts file must contain a dictionary"))
  {
  }

  // ------------------------------------------------------------ lookup

  const PromptField: string := "prompt"

  /** The prompt an entry stands for: the string itself, or the string under a mapping's `prompt` key. */
  function PromptText(entry: Yaml): (r: Option<string>)
    ensures entry.Str? ==> r == Some(entry.s)
    ensures !entry.Str? && !entry.Dict? ==> r.None?
  {
    match entry
    case Str(s) => Some(s)
    case Dict(entries) =>
      var value := Lookup(entries, PromptField);
      if value.Some? && value.value.Str? then Some(value.value.s) else None
    case _ => None
  }

  /**
   * `get_prompt`: an unknown name is a `KeyError` listing the available
   * names; a string entry is the prompt; a mapping entry must hold a string
   * under `prompt`; anything else is a `ValueError`.
   */
  function GetPrompt(prompts: seq<(string, Yaml)>, name: string): (r: Result<string, PromptError>)
    ensures Lookup(prompts, name).None? <==> r.Failure? && r.error.KeyError?
    ensures r.Failure? ==> r.error.KeyError? || r.error.ValueError?
    ensures r.Success? <==> Lookup(prompts, name).Some? && PromptText(Lookup(prompts, name).value).Some?
    ensures r.Success? ==> r.value == PromptText(Lookup(prompts, name).value).value
  {
    match Lookup(prompts, name)
    case None =>
      Failure(KeyError("Prompt '" + name + "' not found. Available prompts: " + Join(", ", Keys(prompts))))
    case Some(data) =>
      if data.Dict? then
        match Lookup(data.entries, PromptField)
        case None => Failure(ValueError("Prompt '" + name + "' is missing 'prompt' field"))
        case Some(value) =>
          if value.Str? then Success(value.s) else Failure(ValueError("Prompt '" + name + "' value must be a string"))
      else if data.Str? then Success(data.s)
      else Failure(ValueError("Invalid prompt format for '" + name + "'" + ". Expected string or dict with 'prompt' field."))
  }

  /** A mapping entry without a `prompt` key. */
  lemma MissingPromptField(prompts: seq<(string, Yaml)>, name: string, entries: seq<(string, Yaml)>)
    requires Lookup(prompts, name) == Some(Dict(entries)) && Lookup(entries, PromptField).None?
    ensures GetPrompt(prompts, name) == Failure(ValueError("Prompt '" + name + "' is missing 'prompt' field"))
  {
  }

  /** A mapping entry whose `prompt` is not a string, such as `123`. */
  lemma NonStringPromptValue(prompts: seq<(string, Yaml)>, name: string, entries: seq<(string, Yaml)>, v: Yaml)
    requires Lookup(prompts, name) == Some(Dict(entries)) && Lookup(entries, PromptField) == Some(v) && !v.Str?
    ensures GetPrompt(prompts, name) == Failure(ValueError("Prompt '" + name + "' value must be a string"))
  {
  }

  /** An entry that is neither a string nor a mapping, such as `123`. */
  lemma InvalidPromptFormat(prompts: seq<(string, Yaml)>, name: string)
    requires Lookup(prompts, name).Some? && !Lookup(prompts, name).value.Str? && !Lookup(prompts, name).value.Dict?
    ensures GetPrompt(prompts, name).Failure? && GetPrompt(prompts, name).error.ValueError?
    ensures StartsWith(GetPrompt(prompts, name).error.message, "Invalid prompt format for '" + name + "'")
  {
    StartsWithConcat("Invalid prompt format for '" + name + "'", ". Expected string or dict with 'prompt' field.");
  }

  /** The `KeyError` names the missing prompt and lists every available one. */
  lemma UnknownNameListsAvailable(prompts: seq<(string, Yaml)>, name: string)
    requires Lookup(prompts, name).None?
    ensures var e := GetPrompt(prompts, name).error;
            e == KeyError("Prompt '" + name + "' not found. Available prompts: " + Join(", ", Keys(prompts)))
    ensures forall key :: key in Keys(prompts) <==> Lookup(prompts, key).Some?
  {
  }

  lemma StartsWithConcat(a: string, b: string)
    ensures StartsWith(a + b, a)
  {
    assert (a + b)[..|a|] == a;
  }

  /** A later entry for the same name replaces an earlier one. */
  lemma LaterEntryWins(prompts: seq<(string, Yaml)>, name: string, text: string)
    ensures GetPrompt(prompts + [(name, Str(text))], name) == Success(text)
  {
  }

  /** Entries under other names do not affect a lookup. */
  lemma OtherEntriesIrrelevant(prompts: seq<(string, Yaml)>, name: string, other: string, v: Yaml)
    requires other != name
    ensures Lookup(prompts + [(other, v)], name) == Lookup(prompts, name)
    ensures Lookup(prompts, name).Some? ==> GetPrompt(prompts + [(other, v)], name) == GetPrompt(prompts, name)
  {
    assert (prompts + [(other, v)])[..|prompts|] == prompts;
  }

  // ------------------------------------------------------------ the named prompts

  /** The four properties of `PromptLoader`. */
  datatype NamedPrompt = LanguageDetection | SingleFileAnalysis | BatchAnalysis | ProjectSummary

  /** The key each property looks up. */
  function KeyOf(p: NamedPrompt): (k: string)
    ensures k != "" && k != PromptField
  {
    match p
    case LanguageDetection => "language_detection"
    case SingleFileAnalysis => "single_file_analysis"
    case BatchAnalysis => "batch_analysis"
    case ProjectSummary => "project_summary"
  }

  /** The four properties read four different entries. */
  lemma KeysDistinct(p: NamedPrompt, q: NamedPrompt)
    requires p != q
    ensures KeyOf(p) != KeyOf(q)
  {
  }

  /** `language_detection_prompt` and the others: `get_prompt` on the property's key. */
  function PropertyPrompt(prompts: seq<(string, Yaml)>, p: NamedPrompt): (r: Result<string, PromptError>)
    ensures Lookup(prompts, KeyOf(p)).Some? && Lookup(prompts, KeyOf(p)).value.Str? ==>
              r == Success(Lookup(prompts, KeyOf(p)).value.s)
    ensures Lookup(prompts, KeyOf(p)).None? ==> r.Failure? && r.error.KeyError?
  {
    GetPrompt(prompts, KeyOf(p))
  }

  /** A prompts file with four string entries serves all four properties. */
  lemma AllPropertiesServed(prompts: seq<(string, Yaml)>, a: string, b: string, c: string, d: string)
    requires prompts == [("language_detection", Str(a)), ("single_file_analysis", Str(b)),
                         ("batch_analysis", Str(c)), ("project_summary", Str(d))]
    ensures PropertyPrompt(prompts, LanguageDetection) == Success(a)
    ensures PropertyPrompt(prompts, SingleFileAnalysis) == Success(b)
    ensures PropertyPrompt(prompts, BatchAnalysis) == Success(c)
    ensures PropertyPrompt(prompts, ProjectSummary) == Success(d)
  {
    var p1 := [(KeyOf(LanguageDetection), Str(a))];
    var p2 := p1 + [(KeyOf(SingleFileAnalysis), Str(b))];
    var p3 := p2 + [(KeyOf(BatchAnalysis), Str(c))];
    assert prompts == p3 + [(KeyOf(ProjectSummary), Str(d))];
    LaterEntryWins([], KeyOf(LanguageDetection), a);
    LaterEntryWins(p1, KeyOf(SingleFileAnalysis), b);
    LaterEntryWins(p2, KeyOf(BatchAnalysis), c);
    LaterEntryWins(p3, KeyOf(ProjectSummary), d);
    OtherEntriesIrrelevant(p1, KeyOf(LanguageDetection), KeyOf(SingleFileAnalysis), Str(b));
    OtherEntriesIrrelevant(p2, KeyOf(LanguageDetection), KeyOf(BatchAnalysis), Str(c));
    OtherEntriesIrrelevant(p3, KeyOf(LanguageDetection), KeyOf(ProjectSummary), Str(d));
    OtherEntriesIrrelevant(p2, KeyOf(SingleFileAnalysis), KeyOf(BatchAnalysis), Str(c));
    OtherEntriesIrrelevant(p3, KeyOf(SingleFileAnalysis), KeyOf(ProjectSummary), Str(d));
    OtherEntriesIrrelevant(p3, KeyOf(BatchAnalysis), KeyOf(ProjectSummary), Str(d));
  }

  /** A file with none of the four keys makes each property a `KeyError`. */
  lemma PropertiesMissing(prompts: seq<(string, Yaml)>, p: NamedPrompt, text: string)
    requires prompts == [("some_other_prompt", Str(text))]
    ensures PropertyPrompt(prompts, p).Failure? && PropertyPrompt(prompts, p).error.KeyError?
  {
  }
}
