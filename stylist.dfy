/**
 * The stylist agent: which style guidelines it sends to the remote model and
 * which prompt it uses. The rewritten description is the remote answer,
 * returned as it is.
 */
module Stylist {
  import opened Base
  import opened Types

  /**
   * The guidelines used when neither the call nor the agent supplies any:
   * the title of the built-in text; its body (colour, typography, layout
   * and element advice) is prompt wording and is not part of this model.
   */
  const DefaultGuidelines: string := "\n## Academic Illustration Style Guidelines\n"

  /**
   * `guidelines or self.guidelines`, then the default when that is empty: a
   * non-empty argument wins, an empty or absent one falls back to the
   * agent's own guidelines, and the default text comes last.
   */
  function StyleGuidelines(guidelines: Option<string>, own: string): (r: string)
    ensures r != ""
    ensures guidelines.Some? && guidelines.value != "" ==> r == guidelines.value
    ensures (guidelines.None? || guidelines.value == "") && own != "" ==> r == own
    ensures (guidelines.None? || guidelines.value == "") && own == "" ==> r == DefaultGuidelines
  {
    var chosen := if guidelines.Some? && guidelines.value != "" then guidelines.value else own;
    if chosen == "" then DefaultGuidelines else chosen
  }

  /** What the stylist sends: the prompt template's name, the description and the guidelines. */
  datatype Request = Request(promptType: string, description: string, guidelines: string)

  /**
   * The request `run` sends: the diagram type's prompt, the description
   * unchanged, and the guidelines chosen as above, which are never empty.
   */
  function RequestFor(description: string, guidelines: Option<string>, own: string, diagramType: DiagramType): (req: Request)
    ensures req.promptType == PromptType(diagramType) && req.description == description
    ensures req.guidelines == StyleGuidelines(guidelines, own) && req.guidelines != ""
  {
    Request(PromptType(diagramType), description, StyleGuidelines(guidelines, own))
  }

  /**
   * `run`: the remote model's answer is the optimized description, and the
   * request it answered carries the diagram type's prompt, the description
   * unchanged and non-empty guidelines chosen as above; `answer` stands for
   * the remote model, and its result type is left open so that a failing
   * call can be modelled too.
   */
  function Run<A>(description: string, guidelines: Option<string>, own: string, diagramType: DiagramType,
                  answer: Request -> A): (r: A)
    ensures exists req: Request ::
      && req.promptType == PromptType(diagramType)
      && req.description == description
      && req.guidelines == StyleGuidelines(guidelines, own) && req.guidelines != ""
      && r == answer(req)
  {
    answer(RequestFor(description, guidelines, own, diagramType))
  }
}
