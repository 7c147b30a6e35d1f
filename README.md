# PaperBanana core, modelled in Dafny

PaperBanana turns the methodology section of a paper into an academic
illustration. It retrieves reference figures, plans a description, styles it,
and then runs a refinement loop: the visualizer renders the description and
the critic reviews it. A separate VLM judge compares a generated figure with
the human one along four dimensions. Two scripts build the reference set from
parsed papers.

This project models the deterministic logic around the remote model calls:

- **Judge** (`Judge`, `Types`, `Metrics`): the four labels, the pair rule and
  the hierarchical rule, the score table, the per-dimension answer parser, the
  query loop of `evaluate`, and the flat export row.
- **Refinement pipeline** (`Pipeline`, `Critic`, `Types`): the guideline
  choice, the bounded refinement loop with its continuation rule, the final
  image and metadata, and the numbered progress messages.
- **Agents**:
  - `Retriever`: early returns, ID-key precedence, ID mapping and truncation.
  - `Planner`: example numbering and image references.
  - `Stylist`: the guideline fallback chain.
  - `Visualizer`: route, output naming, raw-data block, code-fence
    extraction, and the `OUTPUT_PATH` rewrite.
- **Reference catalog** (`Store`): `ReferenceStore` as a class with its
  load-once flag.
- **Configuration and utilities** (`Config`, `Utils`, `Registry`): YAML
  flattening and merge order, `truncate_text`, provider dispatch and the key
  mask.
- **Reference-set scripts** (`Headings`, `Curate`, `Build`): section numbers,
  the heading-driven collection walk, the title, the positional method range,
  figure filtering and ordering, paper identifiers, categories, and
  de-duplication on append.

Supporting modules:

- `Base` holds `Option`, `Result` and the exception record.
- `Strings` models the Python string operations the source uses.
- `Json` models a decoded JSON value: a dict keeps the first position of a key
  and the last value given for it.

Remote answers are inputs to the model:

- A JSON answer is a `Decoded` value, either `Malformed` or `Parsed`.
- A free-text answer is a function parameter.
- A rendering step is a function that returns a path or an exception.
- A critic call is a function that returns a `Decoded` answer or an exception.

Filesystem checks are predicates passed in. The scripts' regular-expression
heading classifiers are function parameters that the model does not interpret.

## Model

| member | source | states |
|---|---|---|
| Types.PromptType | paperbanana/agents/critic.py:54 | The prompt is "diagram" exactly for methodology figures and "plot" exactly for statistical plots. |
| Types.NewGenerationInput | paperbanana/core/types.py:18-26 | With only the two required fields given, the input is a methodology diagram without raw data, and the given texts are kept. |
| Types.Summary | paperbanana/core/types.py:51-55 | Without suggestions the summary is the fixed "No issues found" sentence. Otherwise it is the first min(N, 3) suggestions joined by "; ". |
| Types.NeedsRevision | paperbanana/core/types.py:47-55 | A critique needs revision exactly when it has suggestions. One that needs none is summarised as publication-ready; one that does leads its summary with its first suggestion. |
| Types.SummaryShowsFirstThree | paperbanana/core/types.py:55 | Each of the first three suggestions occurs in the summary. The summary's length is their lengths plus two per separator, so nothing else is added. |
| Types.ScoreMapKeys | paperbanana/core/types.py:78-85 | The score table is defined on exactly the four valid labels. |
| Types.ScoreOf | paperbanana/core/types.py:80-85 | Every score lies in [0, 100]. It is 100 exactly for "Model" and 0 exactly for "Human"; every other label, both tie labels included, scores 50. |
| Types.NewDimensionResult | paperbanana/core/types.py:88-97 | Construction succeeds exactly when the score lies in [0, 100] and keeps the three fields. Otherwise it is a ValidationError. |
| Types.NewEvaluationScore | paperbanana/core/types.py:100-118 | Construction succeeds exactly when the overall score lies in [0, 100]. Otherwise it is a ValidationError. |
| Judge.WinnerToSide | paperbanana/evaluation/judge.py:188-195 | A label favours the Model side exactly when it is "Model" and the Human side exactly when it is "Human". Every other string is a tie. |
| Judge.AggregatePair | paperbanana/evaluation/judge.py:164-186 | A pair is decisive for a side exactly when at least one label favours it and none favours the other side. A split or two ties decide nothing, and the result is never a tie side. |
| Judge.AggregatePairSymmetric | paperbanana/evaluation/judge.py:164-186 | The pair rule does not depend on the order of the two labels. |
| Judge.Overall | paperbanana/evaluation/judge.py:136-162 | The overall winner is always "Model", "Human" or "Both are good". |
| Judge.PrimaryPrecedence | paperbanana/evaluation/judge.py:144-150 | A decisive faithfulness/readability pair decides the result whatever conciseness and aesthetics say. |
| Judge.SecondaryFallthrough | paperbanana/evaluation/judge.py:152-159 | When the primary pair is undecided, a decisive conciseness/aesthetics pair decides. |
| Judge.CompleteTie | paperbanana/evaluation/judge.py:161-162 | The result is "Both are good" exactly when both pairs are undecided. It is never "Both are bad". |
| Judge.OverallSymmetric | paperbanana/evaluation/judge.py:136-162 | The rule favours neither image: exchanging "Model" and "Human" in all four labels exchanges them in the result. |
| Judge.OverallScore | paperbanana/evaluation/judge.py:85-86 | The overall score follows the overall label: 100 for "Model", 0 for "Human", 50 for a tie. |
| Judge.ParseResult | paperbanana/evaluation/judge.py:106-134 | Non-JSON, an unhashable winner or a non-string reasoning gives the fallback ("Both are good", 50, the fixed reasoning). Any other winner outside the four labels (a string, null, a number or a boolean) becomes "Both are good" with score 50 and the reasoning kept. A valid label gets its mapped score. A decoded non-object raises AttributeError, and only then is there an error. |
| Judge.HierarchicalAggregate | paperbanana/evaluation/judge.py:136-162 | Reading the four results by dimension name yields one of the three possible overall labels. |
| Judge.DimensionsDistinct | paperbanana/evaluation/judge.py:22 | The four dimension names differ, so each result is stored under its own key. |
| Judge.FirstError | paperbanana/evaluation/judge.py:69-82 | The first answer that cannot be parsed ends the evaluation with its error. |
| Judge.EvaluationConsistent | paperbanana/evaluation/judge.py:85-95 | A completed evaluation never has "Both are bad" as its overall winner. Its overall score and every dimension's score are the scores of their labels. |
| Judge.Evaluate | paperbanana/evaluation/judge.py:43-95 | Query i asks about dimension i in the fixed order and sends the reference image, then the generated one. There are at most four queries, and exactly four on success. The result is the aggregate of the four parsed answers, or the first parse error. |
| Metrics.ScoresToDict | paperbanana/evaluation/metrics.py:20-30 | The row has 14 entries: winner, score and reasoning of each dimension in order, then the overall winner and score. Each value is the corresponding field. |
| Metrics.FlatKeysDistinct | paperbanana/evaluation/metrics.py:22-29 | No key of the row is written twice, so no entry overwrites another. |
| Critic.Strings | paperbanana/agents/critic.py:86 | A JSON array is a valid `list[str]` exactly when every item is a string, and then its strings are kept in order. |
| Critic.ParseResponse | paperbanana/agents/critic.py:81-95 | Non-JSON gives the fallback: no suggestion, no revision, and no revision needed. For an object, suggestions default to [] and the revision to None; a badly typed field is a ValidationError. A non-object raises AttributeError. |
| Stylist.StyleGuidelines | paperbanana/agents/stylist.py:54-56 | A non-empty argument is used as given. An empty or absent one falls back to the agent's own guidelines, and then to the default text. The result is never empty. |
| Stylist.RequestFor | paperbanana/agents/stylist.py:54-66 | The request carries the diagram type's prompt, the description unchanged, and the guidelines chosen by the fallback chain, which are never empty. |
| Stylist.Run | paperbanana/agents/stylist.py:54-77 | The optimized description is the remote answer to a request with the diagram type's prompt, the description unchanged, and the chosen (never empty) guidelines. |
| Pipeline.Guidelines | paperbanana/core/pipeline.py:198-202 | Methodology diagrams get the methodology guidelines and plots get the plot guidelines. |
| Pipeline.EffectiveGuidelines | paperbanana/core/pipeline.py:198-202 | What the stylist ends up using: a plot with empty plot guidelines is styled with the methodology guidelines, and the default text comes last. |
| Pipeline.ChainedSnoc | paperbanana/core/pipeline.py:252-303 | A round that renders the working description extends a well-chained history, provided the previous round continued. |
| Pipeline.Announce | paperbanana/core/pipeline.py:183-188 | Each message is numbered one past the previous one, with the total current at the time, so the log stays numbered 1, 2, …. |
| Pipeline.Round | paperbanana/core/pipeline.py:255-283 | The round yields `RoundValue`: the visualizer's exception after one message, else the critic's exception (its remote call or the parse) after two, else the record of round k+1 with the rendered description, the image and the parsed critique. Both messages carry the current total. |
| Pipeline.RefineFromOutcome | paperbanana/core/pipeline.py:250-312 | The rounds succeed whenever every round they can reach succeeds, and an exception they end with is one that some round raised. |
| Pipeline.RefineFromSound | paperbanana/core/pipeline.py:250-312 | A history the rounds yield, from round 1 (`RefineValue`) or from a chained prefix, is chained and produced by the remote steps. It holds at most N rounds, at least one when N > 0, and fewer than N only after a stopping critique. |
| Pipeline.Refine | paperbanana/core/pipeline.py:250-312 | The loop yields exactly `RefineValue`: its history when that succeeds, and otherwise the same exception. Record k is round k+1, and round 1 renders the styled description. Later rounds render the previous revision, and only after a critique with suggestions and a non-empty revision. There are at most N rounds, fewer only when the last critique stopped the loop. Every round's messages carry the total announced at the start. The working description is returned. On an early stop the total becomes the next step number. |
| Pipeline.Style | paperbanana/core/pipeline.py:228-237 | The stylist message is sent. The stylist is asked with the diagram type's prompt, the planner's description and the guidelines it ends up using (`StyleRequest`), and its answer is what the step returns. |
| Pipeline.RefineAndFinish | paperbanana/core/pipeline.py:250-343 | After the three planning messages, every message the loop and the finalisation add, but the last, carries the initial total, and so does the last of a failed run. An exception from the rounds escapes unchanged. With N ≤ 0 it raises IndexError after one more message. With N > 0 and successful rounds the run succeeds, and a successful run is `Completed`. |
| Pipeline.Generate | paperbanana/core/pipeline.py:164-344 | The messages are numbered, and every message but the last carries the initial total 3 + 2N + 1. A failed run's last message carries it too. A retrieval failure escapes after one message, a planning failure after two, and a stylist failure after three. The stylist is sent the planner's description with the diagram type's prompt and guidelines: for a methodology diagram, the methodology guidelines; for a plot, the plot guidelines, else the methodology ones. The default text is used when those are empty. With N ≤ 0 the run raises IndexError after four messages. Otherwise a successful run is `Completed`, chained from the stylist's answer: 1..N produced rounds, fewer only after a stop. The description is the working one, the image is `final_output.png` copied from the last round, and the metadata counts the rounds. 3 + 2·rounds + 1 messages are sent, the last numbered [T/T]. After a successful stylist step, an exception from the rounds (`RefineValue`) escapes unchanged, and with N > 0 successful rounds make the run succeed. |
| Pipeline.Completed | paperbanana/core/pipeline.py:297-343 | In a completed run a final image was copied. The number of messages never exceeds the initially announced total, and the last message reads [T/T]. |
| Pipeline.FinishCompletes | paperbanana/core/pipeline.py:311-343 | The loop's guarantees plus the finalisation give a completed run. In particular the finalizing message is numbered with the total it announces, whether the loop stopped early or ran N rounds. |
| Pipeline.Finish | paperbanana/core/pipeline.py:315-343 | The finalizing message is sent. Without rounds, `iterations[-1]` raises IndexError. Otherwise the output holds the working description, the history, the round count and `final_output.png`, and the copied image is the last round's. |
| Retriever.LastWithId | paperbanana/agents/retriever.py:131 | The ID index keeps the last candidate with each ID. An ID is absent exactly when no candidate has it. |
| Retriever.IndexById | paperbanana/agents/retriever.py:131 | The dict built from the candidates maps each ID to the last candidate with it, and has no other keys. |
| Retriever.IdList | paperbanana/agents/retriever.py:119-124 | The IDs come from `selected_ids`, else `top_10_papers`, else `top_10_plots`, else []. A missing or empty (falsy) value falls through to the next key. |
| Retriever.SelectFromCandidates | paperbanana/agents/retriever.py:131-139 | A selection invents no example, is no longer than the ID list, and each entry answers one of the IDs. |
| Retriever.SelectAppend | paperbanana/agents/retriever.py:133-137 | IDs are mapped in response order: the selection for `a + b` is that for `a` followed by that for `b`. |
| Retriever.SelectOne | paperbanana/agents/retriever.py:134-135 | A known ID selects the candidate the index keeps for it. |
| Retriever.SelectUnknown | paperbanana/agents/retriever.py:136-137 | An unknown ID adds nothing. |
| Retriever.SelectErrorStops | paperbanana/agents/retriever.py:133-134 | Once an unhashable ID raises TypeError, later IDs are not looked at. |
| Retriever.ParseResponse | paperbanana/agents/retriever.py:109-139 | A non-JSON answer gives back every candidate. Otherwise the result is the order-preserving selection, and every selected example is a candidate. |
| Retriever.CandidateEntry | paperbanana/agents/retriever.py:101-106 | Entry i starts with "Candidate Paper i+1". It ends with the methodology line, which shows the context cut to its first 300 characters, followed by "...". |
| Retriever.FormatCandidates | paperbanana/agents/retriever.py:94-107 | The text is exactly the candidates' entries in list order, joined by newlines. No candidates give the empty text, and every entry occurs in the text. |
| Retriever.SelectionBound | paperbanana/agents/retriever.py:117-139 | Whatever the answer, a parsed selection draws only on the candidates. |
| Retriever.Run | paperbanana/agents/retriever.py:30-92 | No candidates: [] without a request. At most `num_examples` candidates: all of them unchanged, without a request. Otherwise the request carries the prompt type, the formatted candidate text and `num_examples`. The result is the parsed selection cut by `[:num_examples]` (the first `num_examples` candidates for a non-JSON answer), at most `num_examples` long and drawn from the candidates. |
| Planner.ValidCount | paperbanana/agents/planner.py:92-98 | The running image count never exceeds the number of examples seen. |
| Planner.Entry | paperbanana/agents/planner.py:93-105 | Example i's block is exactly this: "### Example i+1", its caption, and the first 500 characters of its source context. When it has a valid image, a reference to image number `ValidCount(examples, i+1)` follows, its rank among the examples with valid images. A newline ends the block. |
| Planner.FormatExamples | paperbanana/agents/planner.py:82-106 | No examples give the fixed "(No reference examples available. …)" text. Otherwise the text is the blocks in list order joined by newlines, each context cut to 500 characters. |
| Planner.FormatEntry | paperbanana/agents/planner.py:93-105 | One loop step yields example i's block and advances the image counter exactly when the example has a valid image. |
| Planner.ValidCountMonotone | paperbanana/agents/planner.py:96-97 | Image numbers only grow along the list. |
| Planner.ImageNumbersConsecutive | paperbanana/agents/planner.py:92-98 | Image references count only examples with a valid image, numbered 1, 2, … in order without gaps or repeats. |
| Planner.FirstReaching | paperbanana/agents/planner.py:96-98 | Every image number up to the total belongs to some example with a valid image. |
| Planner.LoadedSound | paperbanana/agents/planner.py:114-132 | Every loaded image belongs to an example with a valid image, in example order. There are at most as many as such examples, and exactly as many when no load fails. |
| Planner.LoadExampleImages | paperbanana/agents/planner.py:114-132 | Images are loaded in example order; examples without a valid image and failed loads are skipped. |
| Planner.Run | paperbanana/agents/planner.py:32-80 | The request carries the diagram type's prompt, the context, the caption and the examples text. That text is the fixed no-examples text, or exactly the example blocks joined by newlines in list order. The request has no images exactly when none was loaded. The description is the remote answer. |
| Visualizer.RouteFor | paperbanana/agents/visualizer.py:67-70 | Statistical plots, and only they, go the plot route. |
| Visualizer.DefaultFileName | paperbanana/agents/visualizer.py:92-93 | Default names are `diagram_iter_{i}.png` and `plot_iter_{i}.png`. |
| Visualizer.OutputPath | paperbanana/agents/visualizer.py:129-130 | A given path is used as is. Otherwise the default name goes under the output directory. |
| Visualizer.DefaultNamesDistinct | paperbanana/agents/visualizer.py:92-93 | Distinct rounds on one route get distinct default names, so no round overwrites another's image. |
| Visualizer.PlotDescription | paperbanana/agents/visualizer.py:108-112 | The "## Raw Data" JSON block is appended exactly when the raw data is present and truthy. |
| Visualizer.UpToFence | paperbanana/agents/visualizer.py:147-148 | `index` raises ValueError exactly when no fence follows the start. Otherwise the result is the stripped text from the start up to the first fence at or after it. |
| Visualizer.ExtractCode | paperbanana/agents/visualizer.py:142-153 | With a "```python" opening, the block starts after the first one. Otherwise, with a plain fence, it starts after the first fence. The result is the stripped text up to the next fence, and a ValueError when no fence closes the block. Without any fence, the result is the whole answer stripped. |
| Visualizer.PythonFenceHasFence | paperbanana/agents/visualizer.py:145-149 | A "```python" opening counts as a fence. |
| Visualizer.ExtractFencedProgram | paperbanana/agents/visualizer.py:145-148 | A program in a "```python" block with no fence inside is extracted back, stripped. |
| Visualizer.BlankAssignment | paperbanana/agents/visualizer.py:159 | A line that, from column 0, assigns a quoted literal to `OUTPUT_PATH` becomes empty, and every other line is kept unchanged. |
| Visualizer.StripAssignments | paperbanana/agents/visualizer.py:160 | The rewrite keeps the line structure and blanks exactly the assigning lines. Code without such lines is unchanged. |
| Visualizer.PlotProgram | paperbanana/agents/visualizer.py:160-163 | For a one-line path, the program's first line is the injected assignment. Its other lines are the code's lines with the assignments blanked. |
| Visualizer.InjectedPathAuthoritative | paperbanana/agents/visualizer.py:157-163 | The first line of the program assigns the injected path. No later line assigns a quoted literal to `OUTPUT_PATH` at column 0. |
| Visualizer.GenerateDiagram | paperbanana/agents/visualizer.py:72-97 | The image model is asked for the description at 1792×1024 with the seed. Its exception escapes; otherwise the output path is returned. |
| Visualizer.GeneratePlot | paperbanana/agents/visualizer.py:99-140 | A fence error escapes. Otherwise the program with the injected output path is run. A placeholder is saved exactly when the run fails, and the same path is returned either way. |
| Visualizer.Run | paperbanana/agents/visualizer.py:45-70 | Dispatch by diagram type. Any path returned is the output path for that route, including when a plot failed and a placeholder was saved. |
| Store.ResolveImagePath | paperbanana/reference/store.py:43-45 | A non-empty relative image path is put under the store directory. Empty and absolute paths are kept. |
| Store.Required | paperbanana/reference/store.py:49-51 | A missing required key raises KeyError; a present one gives its value. |
| Store.ToExample | paperbanana/reference/store.py:43-54 | A built example carries the entry's string `id`, `source_context` and `caption`, the resolved image path, and its category (None when the key is absent or null). |
| Store.ReadItems | paperbanana/reference/store.py:41-55 | Examples are built in index order. The first failing entry stops the reading, and those built before it remain. |
| Store.ReadItemsStops | paperbanana/reference/store.py:41-55 | Once an entry fails, later entries change nothing. |
| Store.ReadIndex | paperbanana/reference/store.py:32-55 | No index file gives no example and no failure. Malformed JSON or a non-object document fails with no example. |
| Store.IndexRoundTrip | paperbanana/reference/store.py:100-109 | Reading back what `create` writes gives the same examples in order, with relative image paths put under the directory, and no failure. |
| Store.DumpRead | paperbanana/reference/store.py:105 | A dumped example reads back as itself, up to image-path resolution. |
| Store.WithCategory | paperbanana/reference/store.py:65-68 | Exactly the examples with that category are kept. |
| Store.WithCategoryAppend | paperbanana/reference/store.py:68 | The filter keeps order: filtering a concatenation concatenates the filters. |
| Store.FirstWithId | paperbanana/reference/store.py:73-76 | The position of the first example with the ID, and none exactly when no example has it. |
| Store.FindById | paperbanana/reference/store.py:73-76 | The search returns the first example with the ID, or nothing. |
| Store.ReferenceStore.constructor | paperbanana/reference/store.py:22-25 | A new store is empty and not loaded. |
| Store.ReferenceStore.Load | paperbanana/reference/store.py:27-58 | Once loaded, nothing changes. Otherwise the read examples are appended, and the store is marked loaded exactly when the reading succeeds. A missing index loads an empty store. After a failure, the examples built so far stay and the next access reads again. |
| Store.ReferenceStore.AppendEntries | paperbanana/reference/store.py:41-58 | The loop appends exactly the examples read, stops at the first failure, and marks the store loaded only on success. |
| Store.ReferenceStore.GetAll | paperbanana/reference/store.py:60-63 | Loads at most once, then returns all loaded examples. A load failure escapes. |
| Store.ReferenceStore.GetByCategory | paperbanana/reference/store.py:65-68 | Loads at most once. A failing read escapes with its error and leaves the store unloaded; a successful one marks it loaded. After loading, returns the category filter of the loaded examples. |
| Store.ReferenceStore.GetById | paperbanana/reference/store.py:70-76 | Loads at most once. A failing read escapes with its error and leaves the store unloaded; a successful one marks it loaded. After loading, returns the first loaded example with the ID, or None. |
| Store.ReferenceStore.Count | paperbanana/reference/store.py:78-82 | Loads at most once. A failing read escapes with its error and leaves the store unloaded; a successful one marks it loaded. After loading, the count is the number of loaded examples, which is what `get_all` returns. |
| Store.Create | paperbanana/reference/store.py:84-115 | The written document is the metadata plus the dumped examples. The new store holds exactly the given examples and is already loaded, so it never reads the file back. |
| Config.KeyMapInjective | paperbanana/core/config.py:106-119 | No two dotted paths fill the same setting. |
| Config.Items | paperbanana/core/config.py:122 | Dict iteration visits each key once, with its value, and each value is smaller than the dict (for termination). |
| Config.Leaves | paperbanana/core/config.py:121-128 | The leaves visited are never dicts: nested dicts are descended into, not emitted. |
| Config.StoreSpec | paperbanana/core/config.py:127-128 | A setting is present exactly when it was before or some leaf at its dotted path fills it. Its value is that of the last such leaf. Leaves at unknown paths are dropped. |
| Config.StoreAppend | paperbanana/core/config.py:122-128 | Storing two leaf lists in turn is storing their concatenation. |
| Config.LastFilling | paperbanana/core/config.py:127-128 | A setting some leaf fills has a last leaf filling it. |
| Config.Recurse | paperbanana/core/config.py:121-128 | The recursion stores, into the shared dict, the leaves of the tree in visiting order. |
| Config.FlattenYaml | paperbanana/core/config.py:103-131 | The flat dict holds the tree's leaves stored from nothing. Every name is a mapped setting, and no value is a dict. |
| Config.FromYaml | paperbanana/core/config.py:89-100 | A missing file or a falsy document leaves only the overrides. A YAML error escapes, and a non-dict document raises AttributeError. Otherwise the flattened values come first and the overrides win. Any other key is a mapped setting with a non-dict value. |
| Utils.TruncateText | paperbanana/core/utils.py:76-80 | Text that fits is unchanged; a longer text is `text[:max_chars-3]` plus "...". For `max_chars >= 3` it is exactly `max_chars` long and keeps the text's prefix. Below 3 the negative slice bound makes it longer than the limit. |
| Utils.TruncateIdempotent | paperbanana/core/utils.py:76-80 | With a limit of at least 3, truncating twice is truncating once. |
| Registry.OrDefault | paperbanana/providers/registry.py:45-52 | `value or default`: a non-empty value wins. |
| Registry.CreateVlm | paperbanana/providers/registry.py:17-57 | The lower-cased name selects the Gemini, OpenRouter or APICore client. APICore uses the APICore key and defaults to `https://api.apicore.ai/v1`. Any other name is a ValueError starting "Unknown VLM provider". |
| Registry.CreateImageGen | paperbanana/providers/registry.py:60-90 | `google_imagen`, `openrouter_imagen` and `nanobanana` select their generators with the Google, OpenRouter and KIE keys. Any other name is a ValueError starting "Unknown image provider". |
| Registry.LowerIdempotent | paperbanana/providers/registry.py:19 | Lower-casing twice is lower-casing once. |
| Registry.ProviderNamesCaseInsensitive | paperbanana/providers/registry.py:19-62 | A provider name and its lower-case form select the same client. |
| Registry.KeyMask | paperbanana/providers/registry.py:20-21 | A key longer than 12 shows its first 8 and last 4 characters around "...". An empty key gives "(empty)" and a shorter one "(short)". |
| Headings.SectionNumber | scripts/curate_reference_set.py:317-320 | `get_section_number`, which both scripts define (build_reference_set.py:81-84): a heading has a section number exactly when its stripped text starts with a digit. |
| Headings.SectionNumberOfNumeral | scripts/build_reference_set.py:81-84 | Whitespace, the numeral of n, then text not starting with a digit has section number n. So "3.1 Setup" is section 3. |
| Headings.ListParts | scripts/curate_reference_set.py:362-365 | A list item adds at most one bullet line per entry. |
| Headings.AppendListItems | scripts/curate_reference_set.py:363-365 | The loop appends the bullet lines "- item" of the string entries, in order, and drops other entries. |
| Headings.Step | scripts/build_reference_set.py:263-303 | One item only ever appends parts. A chosen heading turns collection on and is kept. While collection is off, nothing else changes anything. |
| Headings.RunExtends | scripts/build_reference_set.py:257-303 | Parts are only appended: the walk extends what was collected before. |
| Headings.RunAppend | scripts/build_reference_set.py:257-303 | Walking two lists one after the other is walking their concatenation. |
| Headings.IdleUntilChosen | scripts/curate_reference_set.py:338-365 | While not collecting, items other than chosen headings change nothing. |
| Headings.OpensWithChosen | scripts/curate_reference_set.py:338-342 | A walk that opens with a chosen heading collects that heading's text first. |
| Headings.CollectFromFirstChosen | scripts/curate_reference_set.py:325-367 | Nothing before the first chosen heading is collected, and that heading's text is the first part. |
| Headings.NoChosenNoText | scripts/build_reference_set.py:253-305 | A list without a chosen heading, in particular when no section is chosen, yields no text. |
| Headings.ChosenHeadingKept | scripts/curate_reference_set.py:338-342 | Every chosen heading's text is among the collected parts. |
| Curate.ExtractMethodologyText | scripts/curate_reference_set.py:323-367 | The text is the parts the walk collects for the chosen numbers, with no stop classifier, joined by blank lines. |
| Curate.Visit | scripts/curate_reference_set.py:329-365 | One item changes the flag and parts exactly as the walk's step does. |
| Curate.ExtractTitle | scripts/curate_reference_set.py:370-391 | The title is the stripped text of the first level-1 text item that is neither a section label nor starts with a skip word; "" when there is none. |
| Curate.FirstTitle | scripts/curate_reference_set.py:383-391 | For any set of skip words: the stripped text of the first title item, or "" when there is none. A non-empty title is neither a section label nor starts with a skip word. |
| Build.HeadingsOf | scripts/build_reference_set.py:231-236 | There are at most as many headings as items. What the list holds is stated by `Build.HeadingsOfComplete` and `Build.HeadingsOfSound`. |
| Build.HeadingsOfComplete | scripts/build_reference_set.py:231-236 | Every heading item's heading is listed. |
| Build.HeadingsOfSound | scripts/build_reference_set.py:231-236 | Every listed heading is the heading of some item. |
| Build.CollectHeadings | scripts/build_reference_set.py:231-236 | The loop lists the headings with their section numbers, in order. |
| Build.MaxNumbered | scripts/build_reference_set.py:160-171 | The largest number of a numbered heading the classifier accepts, and none exactly when there is no such heading. |
| Build.MinNumbered | scripts/build_reference_set.py:173-176 | The smallest such number, and none exactly when there is no such heading. |
| Build.Range | scripts/build_reference_set.py:182 | `range(lo, hi)` lists lo, lo+1, … below hi. |
| Build.Positional | scripts/build_reference_set.py:178-182 | The positional guess is a run of consecutive numbers. When not empty, it starts just after the last numbered pre-method section and ends just before the first numbered stop section. |
| Build.PositionalMembers | scripts/build_reference_set.py:156-182 | A number is in the positional guess exactly when there is a numbered pre-method heading and a numbered stop heading, and the number lies above every pre-method number and below every stop number. |
| Build.FindMethodSectionsByPosition | scripts/build_reference_set.py:139-182 | The single pass with a running maximum and minimum computes the positional guess. |
| Build.Track | scripts/build_reference_set.py:160-176 | One heading updates the running maximum and minimum. |
| Build.GatherExplicit | scripts/build_reference_set.py:240-243 | The loop gathers the numbers of the numbered headings the methodology classifier accepts. |
| Build.MethodSections | scripts/build_reference_set.py:240-251 | The explicitly named sections are used when there are any; only otherwise is the positional guess used. |
| Build.Chosen | scripts/build_reference_set.py:245-251 | The explicitly named sections when there are any; otherwise exactly the numbers of the positional guess. |
| Build.ChooseSections | scripts/build_reference_set.py:245-251 | The named sections, or the positional guess when none is named. |
| Build.ExtractMethodology | scripts/build_reference_set.py:230-305 | The chosen sections are the method sections. The text is the collected parts joined by blank lines; a stop heading ends collection. |
| Build.CollectText | scripts/build_reference_set.py:253-305 | The extraction loop computes the walk's parts for the chosen sections. |
| Build.Visit | scripts/build_reference_set.py:257-303 | One item changes the flag and parts exactly as the walk's step does. |
| Build.Candidates | scripts/build_reference_set.py:370-387 | Filtering keeps at most the figures given. That the candidates are exactly the admissible figures, tagged, is `Build.CandidatesExact`. |
| Build.CandidatesExact | scripts/build_reference_set.py:370-387 | The candidates are exactly the figures with a caption, a ratio in [min, max] and no result keyword in the lower-cased caption. Each is tagged by whether the caption has a method keyword. |
| Build.Insert | scripts/build_reference_set.py:389-392 | Inserting a candidate adds exactly it to the multiset of the list. |
| Build.SortByKey | scripts/build_reference_set.py:389-392 | `sorted` by the key (not a method figure, distance of the ratio from 2.0) is a permutation of its input. |
| Build.FilterFigures | scripts/build_reference_set.py:370-387 | The loop computes the candidates in figure order. |
| Build.SortByKeyOrdered | scripts/build_reference_set.py:389-392 | The sort is a permutation of the candidates. It puts every methodology figure before every other, and within a group a ratio closer to 2.0 first. |
| Build.IdentifyMethodologyFigures | scripts/build_reference_set.py:344-394 | The result is the candidates sorted by the key (not method figure, distance of the ratio from 2.0). |
| Build.IdentifiedFigures | scripts/build_reference_set.py:344-394 | Every figure returned passes the filter and is correctly tagged, and every figure passing it is returned. Methodology figures come first, closer ratios first within a group. |
| Build.KeepTitleChars | scripts/build_reference_set.py:400 | Only ASCII letters, digits and whitespace remain. |
| Build.TrimStart | scripts/build_reference_set.py:405 | `lstrip(c)` removes exactly the leading run of c. |
| Build.TrimEnd | scripts/build_reference_set.py:405 | `rstrip(c)` removes exactly the trailing run of c. |
| Build.TitleSlug | scripts/build_reference_set.py:399-403 | A title slug is one to five words of lower-case letters and digits joined by "_", and splitting it on "_" gives the words back. |
| Build.TitleWordChars | scripts/build_reference_set.py:400 | The title words are non-empty runs of lower-case letters and digits. |
| Build.DirIdShape | scripts/build_reference_set.py:405 | The directory fallback has only letters, digits and underscores, none at either end, and keeps the name's letters and digits in order. It is empty exactly when the name has none. |
| Build.GeneratePaperId | scripts/build_reference_set.py:397-405 | With title words, the identifier is the words joined by "_". Without them, it is the directory identifier. |
| Build.Hits | scripts/build_reference_set.py:437 | A score counts at most the category's keywords. |
| Build.HitsPositive | scripts/build_reference_set.py:437 | A keyword found in the text makes the score positive. |
| Build.FirstMax | scripts/build_reference_set.py:441 | `max` over the dict returns the first key with the largest score. |
| Build.Scores | scripts/build_reference_set.py:436-439 | There is one score per category, in declaration order. |
| Build.GuessCategory | scripts/build_reference_set.py:408-442 | The result is a declared category. When some keyword hits, it is the first category with the most hits; otherwise it is "science_applications". |
| Build.Admitted | scripts/build_reference_set.py:589-597 | Admitted examples have pairwise distinct IDs not seen before. Every new example is either admitted or its ID was already seen or admitted. |
| Build.FirstUnseenAppend | scripts/build_reference_set.py:589-597 | The front-to-back choice over a concatenation is the choice over the first part, then over the second with the IDs chosen from the first counted as seen. |
| Build.AdmittedAppend | scripts/build_reference_set.py:589-597 | Admitting a concatenation admits the first part, then the second with the first part's admitted IDs counted as seen. |
| Build.AdmittedInOrder | scripts/build_reference_set.py:589-597 | The admitted examples are those the front-to-back loop keeps, in order: an example with a seen ID is skipped; otherwise it is kept and its ID becomes seen. So of several examples sharing an ID only the first is kept. |
| Build.AppendNew | scripts/build_reference_set.py:576-600 | The merged list is the existing examples followed by the admitted new ones. |
| Build.MergedUnique | scripts/build_reference_set.py:576-600 | When the existing index has unique IDs, so has the merged one. |

## Left out

- Remote model and image providers, HTTP, retries and image decoding are not modelled. Each remote answer is a parameter: a `Decoded` value or a function.
- `json.loads`, `yaml.safe_load` and pydantic parsing are not modelled. Their outcome is the `Decoded` / `Json` value.
- Regular-expression semantics are not modelled:
  - The scripts' method, stop and pre-method heading classifiers are uninterpreted function parameters.
  - The title pattern `^(\d+|[A-Z]\.?\d*)[\.\s]` is written out as a predicate (`Curate.IsSectionLabel`).
  - The `OUTPUT_PATH` pattern is matched line by line. Its `\s*` could also span a newline under `re.MULTILINE`, and those cross-line matches are not modelled.
- Visualizer.InjectedPathAuthoritative: only column-0 assignments of a quoted literal are blanked, as the pattern in `visualizer.py` does. An indented assignment, or one of an f-string or a call such as `os.path.join(...)`, survives and overrides the injected path; the model does not promise that the injected path is the one used.
- Lower-casing and `\d` are modelled on ASCII only. `str.split()` and `strip()` use Python's whitespace set.
- File and process I/O are not modelled:
  - saving images, `shutil.copy2`, `save_json`, `planning.json`, `details.json` and `metadata.json`;
  - directory creation;
  - the subprocess that runs a plot program, its 60-second timeout and temporary file;
  - loading prompts and guideline files.
- `Path.exists` and `is_file`, and image loading, are predicates and functions passed in.
- Path normalisation is not modelled: `Path(a) / b` is written as `a + "/" + b`.
- Run IDs, timestamps and provider-name fields of `RunMetadata` are left out; only `refinement_iterations` is kept. `config_snapshot` is left out too.
- The SSL patching in `pipeline.py` is not modelled.
- `_find_prompt_dir` and `Settings` construction from the environment are not modelled.
- Floating-point arithmetic is modelled with `real`. `compute_aspect_ratio` is not modelled: figures arrive with their ratio.
- Float rounding, which could reorder two nearly equal distances from 2.0, is not modelled.
- Build.SortByKeyOrdered: the sort is proved a permutation and ordered by its key, but not stable. The relative order of two candidates with exactly equal keys is not stated.
- `process_paper` and the MinerU directory discovery in `build_reference_set.py` are not modelled.
- Figure extraction from the content list (image items, bounding boxes, paths), the title heuristic in `parse_content_list`, and the curation script's `main` and `PAPER_SELECTIONS` table are not modelled.
- Build.AppendNew: entries of the existing index are generic values with an ID function. Reading that index from JSON is not modelled.
- Stylist.DefaultGuidelines: only the title line of the built-in guideline text is kept. The rest is prompt wording with no effect on control flow.
- The prompt text sent to each model (template loading and `str.format`) is left out. Requests are records of the prompt name and the fields filled in.
- Temperatures and token limits are left out.
- The critic's `run` is modelled through `Types.PromptType` and `Critic.ParseResponse`. The pipeline receives each critic call as a decoded answer or the exception it raised. The image loading and the remote call inside it are not modelled apart; an exception from either is that exception.
- `format_scores` in `metrics.py` (text formatting of floats) is not modelled.
- The `api/`, `mcp_server/`, CLI and example entry points are not modelled.
