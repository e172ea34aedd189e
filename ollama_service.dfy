/**
 * The local draft generator: the checks on an invention description, the
 * patent prompt templates, and the control flow of one draft generation.
 * The model server is a parameter: whether it answers, whether a model can
 * be made available, and what it generates for a prompt (or the exception
 * it raises).
 */
module OllamaService {
  import opened Base
  import opened Text

  const DefaultModel: string := "llama3.2:3b"
  const MinDescriptionLength: nat := 50
  const MaxDescriptionLength: nat := 5000

  /** `validate_description`: `Ok(true)`, or the first check that fails. */
  function ValidateDescription(description: string): Result<bool>
  {
    if Strip(description) == [] then Err(ValueError("Description cannot be empty"))
    else if |Strip(description)| < MinDescriptionLength then Err(ValueError("Description too short (minimum 50 characters)"))
    else if |description| > MaxDescriptionLength then Err(ValueError("Description too long (maximum 5000 characters)"))
    else Ok(true)
  }

  /**
   * A description is accepted exactly when its stripped text has at least 50
   * characters and the raw text at most 5000; the checks run in the order
   * empty, too short (on the stripped text), too long (on the raw text).
   */
  lemma ValidateDescriptionExactly(description: string)
    ensures ValidateDescription(description).Ok? <==>
      |Strip(description)| >= MinDescriptionLength && |description| <= MaxDescriptionLength
    ensures IsBlank(description) ==> ValidateDescription(description) == Err(ValueError("Description cannot be empty"))
    ensures !IsBlank(description) && |Strip(description)| < MinDescriptionLength ==>
      ValidateDescription(description) == Err(ValueError("Description too short (minimum 50 characters)"))
    ensures |Strip(description)| >= MinDescriptionLength && |description| > MaxDescriptionLength ==>
      ValidateDescription(description) == Err(ValueError("Description too long (maximum 5000 characters)"))
  {
  }

  /** A prompt template: the text around its one `{description}` placeholder. */
  datatype Template = Template(before: string, after: string)

  /** `template.format(description=...)`: the description goes in verbatim. */
  function Format(t: Template, description: string): string
  {
    t.before + description + t.after
  }

  /** The utility template's seven items, in order: each heading with the bracketed instruction under it. */
  const UtilityItems: seq<(string, string)> := [
    ("TITLE OF THE INVENTION", "[Generate a clear, descriptive title]"),
    ("FIELD OF THE INVENTION", "[Describe the technical field this invention relates to]"),
    ("BACKGROUND OF THE INVENTION", "[Describe the problem this invention solves and prior art limitations]"),
    ("SUMMARY OF THE INVENTION", "[Provide a clear summary of the invention and its advantages]"),
    ("BRIEF DESCRIPTION OF THE DRAWINGS", "[Describe any figures/diagrams that would illustrate the invention]"),
    ("DETAILED DESCRIPTION OF THE INVENTION", "[Provide detailed technical description of the invention]"),
    ("CLAIMS", "[Generate at least 3 independent claims and 2-3 dependent claims]")]

  /** One numbered item: "n. HEADING", its instruction indented on the next line, a blank line. */
  function Item(n: nat, item: (string, string)): string
  {
    NatToString(n) + ". " + item.0 + "\n   " + item.1 + "\n\n"
  }

  /** The items numbered from `n` on. */
  function Items(items: seq<(string, string)>, n: nat): string
    decreases |items|
  {
    if items == [] then "" else Item(n, items[0]) + Items(items[1..], n + 1)
  }

  const UtilityLead: string := "\"\n\nGenerate a complete patent application draft including:\n\n"
  const UtilityClosing: string := "Use formal patent language and proper structure. Be specific and technical.\n"

  const UtilityTemplate: Template := Template(
    "\nYou are a patent attorney drafting a utility patent application. Based on this invention description: \"",
    UtilityLead + Items(UtilityItems, 1) + UtilityClosing)

  const SoftwareTemplate: Template := Template(
    "\nYou are a patent attorney specializing in software patents. Based on this software invention: \"",
    "\"\n\nGenerate a software patent application draft including:\n\n"
    + "1. TITLE OF THE INVENTION\n2. FIELD OF THE INVENTION  \n3. BACKGROUND OF THE INVENTION\n"
    + "4. SUMMARY OF THE INVENTION\n5. BRIEF DESCRIPTION OF THE DRAWINGS\n"
    + "6. DETAILED DESCRIPTION OF THE INVENTION\n7. CLAIMS\n\n"
    + "Focus on the technical implementation, algorithms, and system architecture. "
    + "Avoid abstract ideas and focus on concrete technical solutions.\n")

  const MedicalTemplate: Template := Template(
    "\nYou are a patent attorney specializing in medical device patents. Based on this medical invention: \"",
    "\"\n\nGenerate a medical device patent application draft including:\n\n"
    + "1. TITLE OF THE INVENTION\n2. FIELD OF THE INVENTION\n3. BACKGROUND OF THE INVENTION  \n"
    + "4. SUMMARY OF THE INVENTION\n5. BRIEF DESCRIPTION OF THE DRAWINGS\n"
    + "6. DETAILED DESCRIPTION OF THE INVENTION\n7. CLAIMS\n\n"
    + "Focus on medical applications, safety considerations, and regulatory compliance.\n")

  /** `templates.get(template_type, templates["utility"])`. */
  function TemplateFor(templateType: string): Template
  {
    if templateType == "software" then SoftwareTemplate
    else if templateType == "medical" then MedicalTemplate
    else UtilityTemplate
  }

  /** `_create_patent_prompt`. */
  function CreatePatentPrompt(description: string, templateType: string): string
  {
    Format(TemplateFor(templateType), description)
  }

  /**
   * The prompt holds the description verbatim, right after the template's
   * opening; a template type other than "software" and "medical" gets the
   * utility template.
   */
  lemma PromptEmbedsDescription(description: string, templateType: string)
    ensures var t := TemplateFor(templateType);
      var p := CreatePatentPrompt(description, templateType);
      && p[|t.before|..|t.before| + |description|] == description
      && OccursAt(p, description, |t.before|)
    ensures templateType != "software" && templateType != "medical" ==>
      CreatePatentPrompt(description, templateType) == Format(UtilityTemplate, description)
  {
    var t := TemplateFor(templateType);
    var p := CreatePatentPrompt(description, templateType);
    assert p[|t.before|..|t.before| + |description|] == description;
  }

  lemma ContainsMiddle(a: string, h: string, b: string)
    ensures Contains(a + h + b, h)
  {
    assert (a + h + b)[|a|..|a| + |h|] == h;
    assert OccursAt(a + h + b, h, |a|);
  }

  lemma ContainsExtend(s: string, h: string, a: string, b: string)
    requires Contains(s, h)
    ensures Contains(a + s + b, h)
  {
    var i :| OccursAt(s, h, i);
    assert (a + s + b)[|a| + i..|a| + i + |h|] == s[i..i + |h|];
    assert OccursAt(a + s + b, h, |a| + i);
  }

  /** Every heading of an item table occurs in its numbered items. */
  lemma {:induction false} ItemsListHeadings(items: seq<(string, string)>, n: nat, j: nat)
    requires j < |items|
    ensures Contains(Items(items, n), items[j].0)
    decreases |items|
  {
    var head := NatToString(n) + ". ";
    var tail := "\n   " + items[0].1 + "\n\n" + Items(items[1..], n + 1);
    assert Items(items, n) == head + items[0].0 + tail;
    if j == 0 {
      ContainsMiddle(head, items[0].0, tail);
    } else {
      assert items[1..][j - 1] == items[j];
      ItemsListHeadings(items[1..], n + 1, j - 1);
      ContainsExtend(Items(items[1..], n + 1), items[j].0, Item(n, items[0]), "");
      assert Item(n, items[0]) + Items(items[1..], n + 1) + "" == Items(items, n);
    }
  }

  /** A text that occurs in the part of a template after the placeholder occurs in every prompt made from it. */
  lemma TemplateKeeps(t: Template, open: string, x: string, close: string, description: string, h: string)
    requires t.after == open + x + close && Contains(x, h)
    ensures Contains(Format(t, description), h)
  {
    ContainsExtend(x, h, t.before + description + open, close);
    assert t.before + description + open + x + close == Format(t, description);
  }

  /** A utility prompt names all seven headings, TITLE OF THE INVENTION through CLAIMS, whatever the description. */
  lemma UtilityPromptListsHeadings(description: string, j: nat)
    requires j < |UtilityItems|
    ensures Contains(CreatePatentPrompt(description, "utility"), UtilityItems[j].0)
  {
    var h := UtilityItems[j].0;
    assert Contains(Format(UtilityTemplate, description), h) by {
      ItemsListHeadings(UtilityItems, 1, j);
      TemplateKeeps(UtilityTemplate, UtilityLead, Items(UtilityItems, 1), UtilityClosing, description, h);
    }
    UtilityPromptIsUtilityTemplate(description);
  }

  /** The "utility" type selects the utility template. */
  lemma UtilityPromptIsUtilityTemplate(description: string)
    ensures CreatePatentPrompt(description, "utility") == Format(UtilityTemplate, description)
  {
    assert TemplateFor("utility") == UtilityTemplate;
  }

  /** What the draft generator returns. */
  datatype GenerationResult = GenerationResult(draft: string, model: string, templateType: string, cached: bool, generationTime: real)

  /** The model server as the generator sees it. */
  datatype Server = Server(
    available: bool,                          // `is_available()`
    modelReady: string -> bool,               // `ensure_model_available(model)`
    generate: (string, string) -> Result<string>,  // `client.generate(model, prompt)['response']`, or what it raised
    defaultModel: string,
    elapsed: real)                            // the measured generation time

  /** `model_name or self.model_name`: an absent or empty name means the default. */
  function ModelOf(s: Server, modelName: Option<string>): string
  {
    if modelName.None? || modelName.value == "" then s.defaultModel else modelName.value
  }

  /**
   * `generate_patent_draft`. The cache lookup re-enters the generator with
   * the description "" (and the same model and template), and uses its
   * answer only when that call does not raise.
   */
  function GeneratePatentDraft(s: Server, description: string, modelName: Option<string>, templateType: string, useCache: bool)
    : Result<GenerationResult>
    decreases |description|
  {
    if !s.available then Err(RuntimeError("Ollama is not available. Please install and start Ollama."))
    else if ValidateDescription(description).Err? then Err(ValidateDescription(description).error)
    else
      var model := ModelOf(s, modelName);
      if !s.modelReady(model) then Err(RuntimeError("Model " + model + " is not available"))
      else
        var cachedLookup := if useCache then GeneratePatentDraft(s, "", Some(model), templateType, true) else Err(Failure(""));
        if cachedLookup.Ok? then Ok(GenerationResult(cachedLookup.value.draft, model, templateType, true, 0.0))
        else
          match s.generate(model, CreatePatentPrompt(description, templateType))
          case Err(e) => Err(RuntimeError("Failed to generate draft: " + Message(e)))
          case Ok(response) => Ok(GenerationResult(response, model, templateType, false, s.elapsed))
  }

  /**
   * The generator checks, in order, that the server answers, the
   * description, and the model, and raises on the first failure.
   */
  lemma GeneratePatentDraftChecks(s: Server, description: string, modelName: Option<string>, templateType: string, useCache: bool)
    ensures var r := GeneratePatentDraft(s, description, modelName, templateType, useCache);
      && (!s.available ==> r == Err(RuntimeError("Ollama is not available. Please install and start Ollama.")))
      && (s.available && ValidateDescription(description).Err? ==> r == Err(ValidateDescription(description).error))
      && (s.available && ValidateDescription(description).Ok? && !s.modelReady(ModelOf(s, modelName)) ==>
            r == Err(RuntimeError("Model " + ModelOf(s, modelName) + " is not available")))
  {
  }

  /**
   * Past its checks the generator asks the server for the prompt made from
   * the description, with the model asked for (else the default); a server
   * error becomes a RuntimeError. The cache lookup never succeeds (its empty
   * description fails validation), so a result is never marked cached.
   */
  lemma GeneratePatentDraftGenerates(s: Server, description: string, modelName: Option<string>, templateType: string, useCache: bool)
    requires s.available && ValidateDescription(description).Ok? && s.modelReady(ModelOf(s, modelName))
    ensures var r := GeneratePatentDraft(s, description, modelName, templateType, useCache);
      var g := s.generate(ModelOf(s, modelName), CreatePatentPrompt(description, templateType));
      && (g.Ok? ==> r == Ok(GenerationResult(g.value, ModelOf(s, modelName), templateType, false, s.elapsed)))
      && (g.Err? ==> r == Err(RuntimeError("Failed to generate draft: " + Message(g.error))))
  {
    if useCache {
      EmptyDescriptionFails(s, Some(ModelOf(s, modelName)), templateType);
    }
  }

  /** A draft the generator returns is never marked cached. */
  lemma GeneratePatentDraftNeverCached(s: Server, description: string, modelName: Option<string>, templateType: string, useCache: bool)
    ensures var r := GeneratePatentDraft(s, description, modelName, templateType, useCache);
      r.Ok? ==> !r.value.cached
  {
    GeneratePatentDraftChecks(s, description, modelName, templateType, useCache);
    if s.available && ValidateDescription(description).Ok? && s.modelReady(ModelOf(s, modelName)) {
      GeneratePatentDraftGenerates(s, description, modelName, templateType, useCache);
    }
  }

  /** Generating from the empty description always raises. */
  lemma EmptyDescriptionFails(s: Server, modelName: Option<string>, templateType: string)
    ensures GeneratePatentDraft(s, "", modelName, templateType, true).Err?
  {
    assert Strip("") == [];
  }
}
