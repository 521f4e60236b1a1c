# faber-cli core, modelled in Dafny

This project models the core of faber-cli. faber-cli loads agent "concepts": roles, tools, teams, workflows and evals. Each comes with categorised context documents. The tool layers overlay customisations over a concept and turns a role into a deployment for a target framework. A separate `codex` tool checks, routes, validates and lists Markdown files by the sync rules in their frontmatter.

Each part of the core is a Dafny module:

- **Shared values.**
  - `Wrappers`: `undefined` and `null` are `Option`; a thrown error is a `Result`.
  - `Json`: the values that YAML and JSON parsing produce. Objects are association lists that keep insertion order.
  - `Assoc`: JavaScript objects and `Map`s.
  - `Text`: the string methods the source calls.
  - `Seqs`: `[...new Set(xs)]` and flattening.
  - `FileSystem`: a read-only snapshot of the disk that stands for the `fs` and `path` calls.
- **Contexts.**
  - `Contexts`: the seven context categories and the context record.
  - `ContextUtils`: merging, filtering, metadata queries and the stable priority sort. The sort works in place on an array.
  - `Frontmatter`: the frontmatter split.
  - `ContextLoader`: loading contexts from a role's directory and from overlay directories, platform detection, specialist detection and the order in which contexts are resolved.
- **Overlays.**
  - `OverlayResolver`: the overlay layers and the concatenating deep merge of their configuration fragments, folded in precedence order. It also collects the layers' contexts.
  - `OverlayUtils`: the overlay queries, conflict detection and the three conflict strategies.
- **Concepts.**
  - `ConceptBase`: the checks every loader shares, metadata validation against a field schema, and concept references `type:name`.
  - `ConceptTypes`: the concept kinds and typed reads of metadata.
  - `RoleLoader` and `RoleValidation`: the role loader and its findings.
  - `Team`, `Tool`, `Eval` and `Workflow`: the other four loaders, with their defaults and checks.
- **Configuration.**
  - `ConfigLoader`: key-path get and set, section filling, the MCP-server check, the array-replacing merge and the choice of format by extension.
  - `ConfigState`: the process-wide configuration, a class holding the stored config.
- **Bindings.**
  - `Bindings`: the framework dispatch table.
  - `ClaudeCode`: the Claude Code transformer, a class whose `files` map and `directories` list the copy methods update.
  - `ClaudeCodeFacts`: what a finished deployment holds.
- **Utilities.**
  - `Validation`: the name, path, e-mail and version predicates. Each regular expression is read by a matcher, which is proved equal to a plain description of the strings it accepts.
  - `Template`: the Handlebars helpers and the class holding the compiled-template cache.
- **Codex tool.**
  - `CodexMetadata`: the frontmatter metadata, and the Codex library as a parameter.
  - `CodexRoute`: routing patterns and reasons.
  - `CodexFormat`: the output formatter.
  - `CodexReporter`: the validation reporter class.
  - `CodexCheck`, `CodexValidate` and `CodexList`: the per-file loops of the `check`, `validate` and `list` commands.

Side effects are modelled as follows:

- Whatever the code does step by step, the model does in methods with loops or in classes with `modifies` clauses. Each method is tied by its `ensures` to a function of its inputs, and lemmas prove properties of those functions.
- Parsing (YAML, JSON), template compilation and rendering, the configuration search and file reads are parameters, typically functions returning `Option` or `Result`.
- Colouring with `chalk` is the identity.

## Model

| member | source | states |
|---|---|---|
| ContextUtils.MergeContexts | src/core/contexts/index.ts:17-28 | returns exactly `MergedText`: for each context its heading, its content and the rule, all joined by newlines |
| ContextUtils.PiecesAppend | src/core/contexts/index.ts:21-25 | the pushed pieces of a concatenation are the pieces of each part in turn |
| ContextUtils.MergedTextSmall | src/core/contexts/index.ts:17-28 | no contexts merge to ""; one context merges to heading, content and rule separated by newlines |
| ContextUtils.MergedTextAppend | src/core/contexts/index.ts:17-28 | merging two non-empty lists is merging each and joining the two texts with a newline |
| ContextUtils.FilterByCategory | src/core/contexts/index.ts:33-38 | a context is kept iff it is in the input with the given category; never longer than the input |
| ContextUtils.FilterAppend | src/core/contexts/index.ts:37 | filtering distributes over concatenation, so input order is kept |
| ContextUtils.FilterSingle | src/core/contexts/index.ts:37 | a single context is kept iff its category is the requested one |
| ContextUtils.FilterOfFilter | src/core/contexts/index.ts:37 | filtering by a then b is filtering by a when a = b and empty otherwise |
| ContextUtils.IsPlatformContextName | src/core/contexts/index.ts:43-45 | a context is a platform context iff its category's value is "platforms" |
| ContextUtils.MetadataField | src/core/contexts/index.ts:52 | optional chaining: no field when metadata is missing or not an object, else the object's field |
| ContextUtils.RequiresMcpServer | src/core/contexts/index.ts:50-55 | true iff metadata.mcp_server is present and truthy and is not the string "null" |
| ContextUtils.RequiresMcpServerCases | src/core/contexts/index.ts:50-55 | no metadata, "null" or "" need no server; any other non-empty string does |
| ContextUtils.GetRequiredTools | src/core/contexts/index.ts:60-62 | `required_tools` when truthy, otherwise the empty array |
| ContextUtils.Rank | src/core/contexts/index.ts:68-80 | the priority table gives each category a rank from 1 to 7 (the `|| 99` fallback is unreachable) |
| ContextUtils.RankInjective | src/core/contexts/index.ts:68-76 | distinct categories have distinct ranks |
| ContextUtils.PrioritySortedOrdered | src/core/contexts/index.ts:78-82 | the sorted list is ordered by non-decreasing rank |
| ContextUtils.PrioritySortedStable | src/core/contexts/index.ts:78-82 | stability: every category's contexts keep their input order |
| ContextUtils.PrioritySortedPermutation | src/core/contexts/index.ts:78-82 | the sorted list is a permutation of the input |
| ContextUtils.SortByPriority | src/core/contexts/index.ts:67-83 | sorts the array in place: afterwards it holds `PrioritySorted` of its old contents |
| ContextLoader.LoadContext | src/core/contexts/loader.ts:20-35 | fails iff the file cannot be read; otherwise the category, the basename without ".md", the frontmatter body and metadata, and the path |
| ContextLoader.LoadUntilFailureFacts | src/core/contexts/loader.ts:50-57 | the loaded contexts come from a prefix of the files, each at its own file's position; loading stops only at an unreadable file |
| ContextLoader.LoadUntilFailureStep | src/core/contexts/loader.ts:50-54 | an unreadable file ends the list; a readable one puts its context first |
| ContextLoader.LoadCategoryContexts | src/core/contexts/loader.ts:40-60 | the loop returns `CategoryContexts`: the ".md" entries in listing order up to the first unreadable one, [] when the directory cannot be listed |
| ContextLoader.CategoryContextsFacts | src/core/contexts/loader.ts:40-60 | an unlistable directory gives []; every context has the category, is named after a ".md" entry and sits at that entry's position |
| ContextLoader.AllReadableLoaded | src/core/contexts/loader.ts:48-54 | when every ".md" entry is readable, each yields one context |
| ContextLoader.LoadCategories | src/core/contexts/loader.ts:247-256 | loads each category directory in order and concatenates the results |
| ContextLoader.CategoriesContextsCategory | src/core/contexts/loader.ts:247-256 | every context of a category sweep has one of the swept categories |
| ContextLoader.KeyContexts | src/core/contexts/loader.ts:74-77 | `map.set` for each context keeps every old key and adds every context's "category/name" key |
| ContextLoader.KeyContextsSnoc | src/core/contexts/loader.ts:74-77 | one more context is one more `set` of its key |
| ContextLoader.KeyContextsKeyed | src/core/contexts/loader.ts:74-77 | the map stays keyed by "category/name" of the stored context |
| ContextLoader.LoadRoleContexts | src/core/contexts/loader.ts:65-81 | returns `RoleContexts`: every context of `<role>/contexts/<category>`, categories in enum order, keyed "category/name" |
| ContextLoader.RoleContextsKeyed | src/core/contexts/loader.ts:65-81 | every entry is keyed by its context's "category/name", and every loaded context has its key |
| ContextLoader.LoadPlatformContext | src/core/contexts/loader.ts:86-92 | defined iff "platforms/platform-<p>" is a key, and then it is the stored context |
| ContextLoader.LoadSpecialistContext | src/core/contexts/loader.ts:97-103 | defined iff "specialists/specialist-<s>" is a key, and then it is the stored context |
| ContextLoader.DetectPlatform | src/core/contexts/loader.ts:185-193 | with config.platforms and a platform_config_key, the configured entry or none; otherwise default_platform or none; never "" |
| ContextLoader.DetectPlatformNoFallback | src/core/contexts/loader.ts:187-189 | a missing configured entry gives no platform even when a default platform is declared |
| ContextLoader.WithKeyPrefix | src/core/contexts/loader.ts:202-206 | every kept context is stored under a key with the prefix |
| ContextLoader.RoleCategoryContexts | src/core/contexts/loader.ts:198-209 | the loop returns the role contexts whose key starts with "<category>/", in map order |
| ContextLoader.LoadPlatformPart | src/core/contexts/loader.ts:148-155 | the detected platform's context, when there is one |
| ContextLoader.LoadOrganizationOverlays | src/core/contexts/loader.ts:214-235 | standards, then references, of `<overlay>/organization/contexts` |
| ContextLoader.LoadPlatformOverlays | src/core/contexts/loader.ts:240-257 | every category of `<overlay>/platforms/<p>/contexts` in enum order |
| ContextLoader.LoadRoleOverlays | src/core/contexts/loader.ts:262-279 | every category of `<overlay>/roles/<name>/contexts` in enum order |
| ContextLoader.ResolveContexts | src/core/contexts/loader.ts:141-180 | returns `ResolvedContexts`: platform context, organization overlays, platform overlays, role standards, role overlays, in that order |
| ContextLoader.ResolvedWithoutOverlays | src/core/contexts/loader.ts:157-177 | with no overlay path, the result is the platform context (if any) followed by the role's standards |
| ContextLoader.ResolvedKeepsStandards | src/core/contexts/loader.ts:169-171 | the role's own standards are always in the result |
| ContextLoader.MatchingSpecialists | src/core/contexts/loader.ts:300-304 | a specialist is matched iff some table row naming it has a keyword in the text |
| ContextLoader.SomeKeyword | src/core/contexts/loader.ts:301 | true iff some keyword occurs in the text |
| ContextLoader.MatchRows | src/core/contexts/loader.ts:300-304 | the loop returns the matching specialists in table order |
| ContextLoader.AnalyzeRequestForSpecialists | src/core/contexts/loader.ts:284-307 | the de-duplicated matches of the lower-cased request against the keyword table |
| ContextLoader.AnalyzeRequestFacts | src/core/contexts/loader.ts:284-307 | each specialist appears once, in table order, exactly when one of its keywords occurs in the lower-cased request |
| ContextLoader.TableNamesDistinct | src/core/contexts/loader.ts:289-298 | the table names each specialist once |
| ContextLoader.MatchingDistinct | src/core/contexts/loader.ts:300-304 | with distinct specialist names, the matches are distinct |
| Frontmatter.Match | src/core/contexts/loader.ts:112-113 | the two groups of `^---\n([\s\S]*?)\n---\n([\s\S]*)$`: the content is opener, group one, closer, group two, and the lazy group ends at the first closer; no match when the opener is missing or no closer follows |
| Frontmatter.MatchCompose | src/core/contexts/loader.ts:112-113 | a yaml block free of the closing delimiter is recovered together with the body |
| Frontmatter.ParseFrontmatter | src/core/contexts/loader.ts:108-125 | no match or a failed parse gives no metadata and the whole content as body; otherwise the parsed group one and group two |
| Json.SpreadFields | src/core/overlays/index.ts:92 | spreading an object contributes its entries; a missing or non-object value contributes no keys |
| Json.MergeValue | src/core/overlays/resolver.ts:224-243 | two plain objects merge recursively; two arrays concatenate (resolver policy); anything else is overridden by the source |
| Json.DeepMergeGetOut | src/core/overlays/resolver.ts:220-222 | a key the source does not have keeps the target's value |
| Json.MergedEntryAt | src/core/overlays/resolver.ts:222-245 | the value stored for each source key merges the target's original value at that key with the source's value |
| Json.DeepMergeGet | src/core/overlays/resolver.ts:216-248 | target-only keys keep their value; every source key holds the merge of the two values |
| Json.DeepMergeKeys | src/core/overlays/resolver.ts:216-248 | every key of either side is a key of the result, and no key repeats |
| OverlayResolver.OverlayContexts | src/core/overlays/resolver.ts:145-165 | a missing contexts directory gives no contexts |
| OverlayResolver.LayerConfig | src/core/overlays/resolver.ts:131-137 | an unreadable config.yml leaves the config undefined |
| OverlayResolver.OverlayContentAt | src/core/overlays/resolver.ts:113-140 | a missing directory gives the empty content; otherwise its contexts and its parsed config |
| OverlayResolver.LoadOverlayContexts | src/core/overlays/resolver.ts:145-165 | the loop returns `OverlayContexts`: every category directory in enum order |
| OverlayResolver.LoadOverlayContent | src/core/overlays/resolver.ts:113-140 | the record updates give `OverlayContentAt` |
| OverlayResolver.MissingConfigKeepsContexts | src/core/overlays/resolver.ts:126-137 | without config.yml the config is undefined and the contexts are still loaded |
| OverlayResolver.ResolveOverlays | src/core/overlays/resolver.ts:36-68 | the record assignments give `ResolvedOverlays` |
| OverlayResolver.ResolvedOverlaysShape | src/core/overlays/resolver.ts:41-65 | organization is always loaded; platforms holds exactly a truthy platform; exactly one of roles, teams, workflows holds the name for "role", "team", "workflow"; other types add nothing |
| OverlayResolver.LayerConfigs | src/core/overlays/resolver.ts:183-207 | the configs of a record's entries, one per entry in insertion order |
| OverlayResolver.MergeStep | src/core/overlays/resolver.ts:178-180 | an absent or falsy config is skipped |
| OverlayResolver.MergedConfig | src/core/overlays/resolver.ts:170-211 | no configs leave the base |
| OverlayResolver.MergedConfigAppend | src/core/overlays/resolver.ts:170-211 | folding a concatenation is folding each part in turn |
| OverlayResolver.MergeLayer | src/core/overlays/resolver.ts:183-187 | the loop folds one record's configs onto `merged` |
| OverlayResolver.MergeConfigurations | src/core/overlays/resolver.ts:170-211 | returns the base folded with every config in precedence order: organization, platforms, roles, teams, workflows |
| OverlayResolver.MergeStepOther | src/core/overlays/resolver.ts:222-245 | a config without key k leaves the merged value at k alone |
| OverlayResolver.MergedScalarLatest | src/core/overlays/resolver.ts:240-242 | a scalar set by the last layer mentioning k is the merged value at k: later layers win |
| OverlayResolver.MergeStepArray | src/core/overlays/resolver.ts:237-239 | a layer holding an array at k appends its items to the merged array |
| OverlayResolver.MergedArraysAccumulate | src/core/overlays/resolver.ts:237-239 | arrays under one key accumulate from the base through every layer, lowest precedence first |
| OverlayResolver.LayerContexts | src/core/overlays/resolver.ts:259-273 | a record contributes as many contexts as its entries hold |
| OverlayResolver.CollectedLength | src/core/overlays/resolver.ts:253-276 | collectContexts returns as many contexts as all layers together |
| OverlayResolver.PushLayer | src/core/overlays/resolver.ts:259-261 | the loop appends the contexts of a record's entries in order |
| OverlayResolver.CollectContexts | src/core/overlays/resolver.ts:253-276 | returns organization, platform, role, team and workflow contexts in that order |
| OverlayUtils.NoOverlaysNoContexts | src/core/overlays/index.ts:17-25 | without overlays nothing is collected; with overlays but nothing collected, the organization has no contexts |
| OverlayUtils.ResolvedConceptHasOverlays | src/core/overlays/index.ts:17-25 | a resolved role, team or workflow always has overlays, even when every directory is missing |
| OverlayUtils.CountLayer | src/core/overlays/index.ts:33-35 | the loop adds the context counts of one record's entries |
| OverlayUtils.CountContexts | src/core/overlays/index.ts:30-50 | the count is the number of contexts collectContexts returns |
| OverlayUtils.FindBase | src/core/overlays/index.ts:62-64 | none iff no base context has the overlay's category and name; otherwise a base context that does |
| OverlayUtils.FindBaseFirst | src/core/overlays/index.ts:62-64 | `find` returns the first match |
| OverlayUtils.Conflicts | src/core/overlays/index.ts:55-72 | at most one pair per overlay context; each pair is a matching base and overlay from the inputs |
| OverlayUtils.ConflictsExact | src/core/overlays/index.ts:61-69 | the pairs' overlays are exactly the matched overlay contexts in order, and each pair's base is the first base match |
| OverlayUtils.FindConflicts | src/core/overlays/index.ts:55-72 | the loop returns `Conflicts` |
| OverlayUtils.MergeConflicts | src/core/overlays/index.ts:77-105 | "override" and unknown strategies return the overlay; "merge" and "append" keep the base and extend its content with the headed overlay content; "merge" also spreads the overlay metadata over the base's |
| OverlayUtils.MergedMetadata | src/core/overlays/index.ts:92 | under "merge" overlay metadata keys win and base-only keys survive |
| ConceptBase.ElementFindings | src/core/concepts/base.ts:28 | one finding per non-string element: none exactly when every element is a string |
| ConceptBase.KindFindings | src/core/concepts/base.ts:19-29 | a present value draws no finding exactly when it is admitted by the field's kind |
| ConceptBase.FieldFindings | src/core/concepts/base.ts:19-29 | a field draws no finding exactly when it is optional and absent, or present and admitted |
| ConceptBase.MetadataFindings | src/core/concepts/base.ts:123-142 | a non-object value is one issue at the empty path; an object is checked field by field in schema order |
| ConceptBase.SchemaFindingsExact | src/core/concepts/base.ts:123-142 | metadata validation reports nothing exactly when every schema field conforms |
| ConceptBase.FieldFindingsOk | src/core/concepts/base.ts:19-29 | one field's findings are empty exactly when it meets its rule |
| ConceptBase.ConformsSnoc | src/core/concepts/base.ts:19-29 | conformance to a schema is conformance to its prefix and to its last field |
| ConceptBase.SchemaFindingsErrors | src/core/concepts/base.ts:132-136 | every reported metadata issue has severity "error" |
| ConceptBase.KindFindingsErrors | src/core/concepts/base.ts:132-136 | every finding of a field's kind is an error |
| ConceptBase.ElementFindingsErrors | src/core/concepts/base.ts:132-136 | every finding about an array element is an error |
| ConceptBase.SlugFieldRejected | src/core/concepts/base.ts:20-22 | a non-slug `org`, `system` or `name` is reported as an "Invalid" error at that field |
| ConceptBase.SchemaFindingsAt | src/core/concepts/base.ts:131-137 | each field's findings appear among the metadata findings |
| ConceptBase.Validate | src/core/concepts/base.ts:65-80 | the errors are the metadata findings followed by the specific ones; valid exactly when both are empty |
| ConceptBase.WarningOnlyInvalid | src/core/concepts/base.ts:76-78 | a single warning already makes the concept invalid |
| ConceptBase.FirstReadable | src/core/concepts/base.ts:97-106 | none only when no candidate is readable; otherwise the first readable candidate and its content |
| ConceptBase.MetadataResult | src/core/concepts/base.ts:85-118 | no readable metadata file is the "No metadata file found" error |
| ConceptBase.LoadMetadata | src/core/concepts/base.ts:85-118 | the loop that stops at the first readable file yields `MetadataResult` |
| ConceptBase.LoadedMetadata | src/core/concepts/base.ts:41-55 | a missing directory is the "does not exist" error; success means the metadata has the loader's type; metadata errors pass through |
| ConceptBase.ListFiles | src/core/concepts/base.ts:166-176 | an unreadable directory lists nothing; no extension lists every entry; otherwise exactly the entries with that suffix |
| ConceptBase.ParseReference | src/core/concepts/base.ts:216-227 | an accepted reference has a non-empty name without ':' |
| ConceptBase.SplitAtFirst | src/core/concepts/base.ts:217 | splitting at ':' separates the text before the first colon |
| ConceptBase.ParseReferenceString | src/core/concepts/base.ts:212-227 | `parse` inverts `toString` for a non-empty name without ':' |
| ConceptBase.ParseReferenceDropsRest | src/core/concepts/base.ts:217 | the text after a second ':' is dropped |
| ConceptBase.ParseReferenceEmpty | src/core/concepts/base.ts:218-220 | an empty type or an empty name is an "Invalid concept reference" error |
| ConceptTypes.TypeName | src/types/concepts.ts:6-12 | each concept type's string value is non-empty and free of ':' |
| ConceptTypes.TypeFromName | src/core/concepts/base.ts:222-224 | a name is recognised exactly when it is some type's string value, and then yields that type |
| ConceptTypes.TypeNameRoundTrip | src/core/concepts/base.ts:222-226 | looking up a type's own string value yields the type back |
| RoleLoader.Read | src/core/concepts/base.ts:159-161 | reading succeeds exactly when the file exists, with its content |
| RoleLoader.AllLoadPrefix | src/core/concepts/role.ts:149-157 | every file loads exactly when every earlier one does and the last one does |
| RoleLoader.CollectOk | src/core/concepts/role.ts:149-159 | the map-building loop completes exactly when no file's load throws |
| RoleLoader.CollectFirstError | src/core/concepts/role.ts:149-159 | a thrown error is that of the first file whose load throws |
| RoleLoader.CollectKeys | src/core/concepts/role.ts:149-159 | the map's keys are its old keys followed by each newly set key at its first setting |
| RoleLoader.CollectGet | src/core/concepts/role.ts:152-156 | after the loop, a key holds the value set last under it, or its old value |
| RoleLoader.CollectEntries | src/core/concepts/role.ts:149-159 | every entry was already present or was set by loading one of the files |
| RoleLoader.CollectLoop | src/core/concepts/role.ts:149-159 | the loop, with early exit at the first thrown error, computes `Collect` |
| RoleLoader.CollectStop | src/core/concepts/role.ts:149-159 | an error at a file after a clean prefix is the loop's result |
| RoleLoader.Prompt | src/core/concepts/role.ts:138-143 | a missing prompt.md reads as the empty prompt; a present one is read |
| RoleLoader.LoadDocuments | src/core/concepts/role.ts:145-177 | the loop over tasks and flows computes `Documents` |
| RoleLoader.Names | src/core/concepts/role.ts:150 | each listed file's name, in order, minus the extension |
| RoleLoader.DocumentKeys | src/core/concepts/role.ts:150-156 | the keys set are the file names minus ".md", in listing order |
| RoleLoader.DocumentsOk | src/core/concepts/role.ts:145-177 | loading tasks or flows fails exactly when some listed ".md" file cannot be read |
| RoleLoader.DocumentsKeys | src/core/concepts/role.ts:145-177 | the loaded map is keyed by the listed file names minus ".md", de-duplicated, in listing order |
| RoleLoader.DocumentsEntries | src/core/concepts/role.ts:145-177 | each loaded entry is the document of a listed ".md" file that can be read: its name, its content and its path |
| RoleLoader.LoadContexts | src/core/concepts/role.ts:179-206 | the loop over every category computes `RoleContextMap` |
| RoleLoader.LoadCategoryInto | src/core/concepts/role.ts:183-203 | one category's loop computes `CategoryInto` |
| RoleLoader.ContextsOfStep | src/core/concepts/role.ts:183-203 | the categories are loaded one after another, each continuing the map |
| RoleLoader.ContextsOfErrStays | src/core/concepts/role.ts:183-203 | once a category fails, loading ends with that error |
| RoleLoader.ContextLoaderKeyed | src/core/concepts/role.ts:188-201 | each context set is keyed "category/name" and carries its file path |
| RoleLoader.CategoryIntoKeyed | src/core/concepts/role.ts:187-202 | a category loop keeps the map keyed by category and name |
| RoleLoader.ContextsOfKeyed | src/core/concepts/role.ts:179-206 | the role's context map is keyed "category/name" throughout |
| RoleLoader.Bindings | src/core/concepts/role.ts:208-213 | no "*.binding.yml" file exactly when the bindings are undefined |
| RoleLoader.LoadBindings | src/core/concepts/role.ts:208-230 | the binding loop computes `Bindings` |
| RoleLoader.BindingKeys | src/core/concepts/role.ts:217-227 | the keys set are the framework names of the parsable binding files, in listing order |
| RoleLoader.BindingsFacts | src/core/concepts/role.ts:208-230 | with every binding file readable, the map holds exactly the parsable ones keyed by name minus ".binding.yml"; an unparsable file is skipped, not fatal |
| RoleLoader.RoleOf | src/core/concepts/role.ts:40-66 | a loaded role carries its path and the checked metadata; metadata errors pass through unchanged |
| RoleLoader.LoadRole | src/core/concepts/role.ts:40-66 | the loader method computes `RoleOf` |
| RoleLoader.MissingPromptLoads | src/core/concepts/role.ts:72-78 | a role without prompt.md still loads, with an empty prompt, and validation then reports the missing prompt |
| RoleLoader.LoadedRoleKeyed | src/core/concepts/role.ts:52 | a loaded role's context map is keyed "category/name" |
| RoleValidation.RunEnd | src/core/concepts/role.ts:235 | the end of the maximal run of `[a-z-]` characters from a position |
| RoleValidation.MatchAt | src/core/concepts/role.ts:235 | a match of the reference pattern ends strictly after its start, within the prompt |
| RoleValidation.SpansOkCons | src/core/concepts/role.ts:236 | a match followed by valid later spans is a valid span list |
| RoleValidation.SpansMatchCons | src/core/concepts/role.ts:236 | a match followed by matching spans gives matching spans |
| RoleValidation.SpansOrderedCons | src/core/concepts/role.ts:236 | a match before later spans keeps the spans ordered |
| RoleValidation.Spans | src/core/concepts/role.ts:235-237 | the global match's successive spans are matches, in order and without overlap |
| RoleValidation.CoveredCons | src/core/concepts/role.ts:236 | a position covered by the head or the rest is covered by the list |
| RoleValidation.SpansComplete | src/core/concepts/role.ts:235-237 | every position where a match could start is inside some reported match |
| RoleValidation.Texts | src/core/concepts/role.ts:236 | the matched texts are exactly the span slices, one per span |
| RoleValidation.PrefixChars | src/core/concepts/role.ts:235 | the literal "/contexts/" prefix holds no '.' |
| RoleValidation.MatchNoSlashDot | src/core/concepts/role.ts:235 | a match never contains a '/' followed by '.' |
| RoleValidation.MatchStartsWithPrefix | src/core/concepts/role.ts:235 | every match starts with "/contexts/" |
| RoleValidation.MarkerStart | src/core/concepts/role.ts:126 | an occurrence of "/.faber/overlays/" starts with "/." |
| RoleValidation.NoSlashDotExcludes | src/core/concepts/role.ts:126 | a string free of "/." cannot contain "/.faber/overlays/" |
| RoleValidation.ReferencesNeverOverlays | src/core/concepts/role.ts:119-133 | every extracted reference starts with "/contexts/" and none contains "/.faber/overlays/": the overlay exemption of the warning check never applies |
| RoleValidation.ValidateSpecific | src/core/concepts/role.ts:68-136 | the checks pushed in order give `RoleFindings` |
| RoleValidation.CheckPlatforms | src/core/concepts/role.ts:92-105 | the per-platform loop gives `PlatformFindings` |
| RoleValidation.CheckReferences | src/core/concepts/role.ts:120-133 | the per-reference loop gives `ReferenceFindings` |
| RoleValidation.PlatformFindingsExact | src/core/concepts/role.ts:92-105 | exactly the declared platforms without a `platform-<p>` platform context are reported, each by its own error, at most one per platform |
| RoleValidation.ReferenceFindingsExact | src/core/concepts/role.ts:120-133 | without overlay references, the warnings are exactly the references no context path resolves |
| RoleValidation.PromptWarnings | src/core/concepts/role.ts:119-133 | the prompt's warnings are exactly its unresolved references |
| RoleValidation.ReferenceFindingsWarn | src/core/concepts/role.ts:127-131 | reference findings are warnings at "prompt.md" |
| RoleValidation.PlatformFindingsPaths | src/core/concepts/role.ts:99-103 | platform findings are at neither "prompt.md" nor the path reported for missing tasks and flows |
| RoleValidation.InRoleFindings | src/core/concepts/role.ts:68-136 | a finding is reported exactly when it is a prompt, task-or-flow, platform or reference finding |
| RoleValidation.PromptErrorIff | src/core/concepts/role.ts:72-78 | the "prompt.md" error appears exactly when the prompt is empty |
| RoleValidation.DocumentErrorIff | src/core/concepts/role.ts:81-87 | the missing task-or-flow error appears exactly when the role has neither tasks nor flows |
| RoleValidation.DefaultCheckedOnlyWithPlatforms | src/core/concepts/role.ts:90-115 | the default-platform error appears exactly when platforms are declared and a set default is not among them |
| RoleValidation.ValidateRole | src/core/concepts/role.ts:22-29 | a role is valid exactly when its metadata meets the role schema and no specific finding is reported |
| RoleValidation.UnresolvedOnlyInvalid | src/core/concepts/base.ts:76-78 | a role whose only finding is an unresolved-reference warning is still invalid |
| Team.TeamOf | src/core/concepts/team.ts:28-40 | the loaded team has type team and its metadata's name, members and leader; missing workflows become [] |
| Team.ValidateTeam | src/core/concepts/team.ts:48-60 | no members is the "at least one member" error; otherwise it passes exactly when an unset or empty leader, or one naming some member, is given |
| Team.NoLeaderPasses | src/core/concepts/team.ts:54-59 | a team with members and no leader passes |
| Team.LeaderMatchedByName | src/core/concepts/team.ts:55 | a leader matching only a member's role, not a name, is reported as not found |
| Tool.ToolOf | src/core/concepts/tool.ts:24-38 | the loaded tool has type tool; mcp_server is true only when set true; missing protocols become [] |
| Tool.ValidateTool | src/core/concepts/tool.ts:46-57 | it passes exactly when an MCP server has a non-empty command and an mcp-server tool is an MCP server; a server without a command gets that error first |
| Tool.McpServerToolComplete | src/core/concepts/tool.ts:48-56 | an mcp-server tool that passes is an MCP server with a command |
| Tool.PlainToolPasses | src/core/concepts/tool.ts:46-57 | a tool that is neither flagged nor typed as an MCP server always passes |
| Eval.Threshold | src/core/concepts/eval.ts:47 | an absent or zero threshold becomes 80; any other value is kept |
| Eval.EvalOf | src/core/concepts/eval.ts:37-50 | the loaded eval has type eval, its targets and scenarios, [] for missing metrics and platforms, and a non-zero threshold |
| Eval.ZeroThresholdBecomesDefault | src/core/concepts/eval.ts:47 | an explicit threshold of 0 is replaced by 80 |
| Eval.FirstMalformed | src/core/concepts/eval.ts:69-73 | the index of the first target without ':', none exactly when every target has one |
| Eval.ValidateEval | src/core/concepts/eval.ts:58-74 | it passes exactly when there are scenarios and targets and every target has ':'; the scenario check comes before the target check |
| Eval.FirstMalformedReported | src/core/concepts/eval.ts:69-73 | the error names the first target without ':' |
| Workflow.WorkflowOf | src/core/concepts/workflow.ts:36-48 | the loaded workflow has type workflow, its stages and teams, [] for missing triggers and {} for missing conditions |
| Workflow.StageTeams | src/core/concepts/workflow.ts:63 | a team is in the set exactly when some stage names it |
| Workflow.UnusedWarnings | src/core/concepts/workflow.ts:64-68 | at most one warning per declared team |
| Workflow.ValidateWorkflow | src/core/concepts/workflow.ts:56-69 | it completes exactly when there is a stage; without one it is the "at least one stage" error with no warnings |
| Workflow.UnusedWarningsExact | src/core/concepts/workflow.ts:63-68 | the warnings name exactly the declared teams no stage uses |
| Workflow.AllUsedNoWarnings | src/core/concepts/workflow.ts:63-68 | when every declared team has a stage nothing is warned |
| ConfigLoader.Step | src/core/config/loader.ts:91-92 | a step succeeds only on an object or an array; on an object it descends exactly when the key is present, into that key's value |
| ConfigLoader.ArrayMemberIff | src/core/config/loader.ts:91-92 | an array holds exactly `length` and the decimal spellings of the indices below its length; `length` yields the element count and an index the element there |
| Text.ParseIndexRoundTrip | src/core/config/loader.ts:91 | every count spelt in decimal parses back to itself, so an array index written as a path segment selects that index |
| ConfigLoader.LookupAppend | src/core/config/loader.ts:86-99 | following a joined path is following the first part, then the rest from where it ended |
| ConfigLoader.LookupNone | src/core/config/loader.ts:86-99 | `get` yields undefined exactly when, after a resolving prefix, some segment is missing or meets a value that is neither an object nor an array |
| ConfigLoader.GetValue | src/core/config/loader.ts:86-99 | the per-segment loop yields the value at the dotted path, or undefined |
| ConfigLoader.GetArrayElement | src/core/config/loader.ts:86-99 | `get` of `k.<i>` on an array under `k` yields element `i` |
| ConfigLoader.GetArrayLength | src/core/config/loader.ts:86-99 | `get` of `k.length` on an array under `k` yields its element count |
| ConfigLoader.AssignKey | src/core/config/loader.ts:117 | after `current[key] = x` the key leads to `x` and the container keeps its kind; an object changes no other key, an array (for a key other than `length`) keeps every other element and does not shrink |
| ConfigLoader.SetIn | src/core/config/loader.ts:109-117 | after the walk over objects and arrays the path leads to the value, the container keeps its kind, and top-level keys other than the first segment are unchanged |
| ConfigLoader.SetInEmpty | src/core/config/loader.ts:111-114 | below a fresh `{}` the walk always succeeds and builds exactly the nested chain |
| ConfigLoader.Set | src/core/config/loader.ts:104-119 | on success the result holds the value at the dotted path |
| ConfigLoader.SetOneSegment | src/core/config/loader.ts:104-119 | a path without '.' assigns one top-level key of the copy and leaves the caller's object untouched |
| ConfigLoader.SetTopLevel | src/core/config/loader.ts:104-119 | only the first segment's top-level entry can differ from the input's |
| ConfigLoader.SetSharesNested | src/core/config/loader.ts:106-114 | through an existing nested object or array the write is shared: the caller's own config also holds the value at the path |
| ConfigLoader.SetReplacesScalar | src/core/config/loader.ts:111-113 | a missing or non-object first segment is replaced by a fresh object holding just the rest of the path; the caller's config is unchanged |
| ConfigLoader.SetThroughNull | src/core/config/loader.ts:111-114 | a null intermediate (typeof "object") is descended into, so the next assignment throws |
| ConfigLoader.SetArrayElement | src/core/config/loader.ts:104-119 | `set` of `k.<i>` on an array under `k` replaces element `i` in place, and the caller's config shares the updated array |
| ConfigLoader.SetBelowLength | src/core/config/loader.ts:111-113 | a path continuing below an array's `length` replaces the count by `{}`, which throws "Invalid array length" |
| ConfigLoader.FillSection | src/core/config/loader.ts:126-140 | a truthy section is kept; a falsy one gets the default; no other key changes |
| ConfigLoader.WithSectionsGet | src/core/config/loader.ts:124-141 | missing or falsy sections get their default and are then truthy; every other entry keeps its value |
| ConfigLoader.CheckServer | src/core/config/loader.ts:153-161 | a server passes exactly when it is not null and has exactly one of a truthy `command` and `url`; neither and both get their own errors |
| ConfigLoader.FirstFailure | src/core/config/loader.ts:143-145 | the server loop passes exactly when every server passes |
| ConfigLoader.FirstFailureIsFirst | src/core/config/loader.ts:143-145 | the error thrown is the first failing server's own |
| ConfigLoader.ValidatedConfig | src/core/config/loader.ts:124-148 | validation succeeds exactly when every MCP server passes, and then returns the config with its sections filled |
| ConfigLoader.FillSections | src/core/config/loader.ts:126-140 | the four fill statements give `WithSections` |
| ConfigLoader.ValidateConfig | src/core/config/loader.ts:124-148 | validation in place computes `ValidatedConfig` |
| ConfigLoader.ValidatedConfigErr | src/core/config/loader.ts:143-161 | a failing validation throws the first failing server's error |
| ConfigLoader.CommandServersPass | src/core/config/loader.ts:143-161 | a config whose servers each have a command and no url passes with only its sections filled |
| ConfigLoader.ConfigDeepMergeGet | src/core/config/loader.ts:194-221 | objects on both sides merge recursively; anything else, arrays included, takes the source's value |
| ConfigLoader.MergeAllKeys | src/core/config/loader.ts:181-189 | every default section survives any merge and no key is repeated |
| ConfigLoader.Merge | src/core/config/loader.ts:181-189 | the merge loop folds the configs over the default configuration |
| ConfigLoader.MergeNothing | src/core/config/loader.ts:166-189 | merging nothing gives the default configuration |
| ConfigLoader.MergeLastWins | src/core/config/loader.ts:200-216 | a key the last config sets to a non-object value ends with that value |
| ConfigLoader.MergeUntouched | src/core/config/loader.ts:181-221 | a key no config mentions keeps the default configuration's value |
| ConfigLoader.Extname | src/core/config/loader.ts:50 | the extension is empty or starts with '.' |
| ConfigLoader.LastSegment | src/core/config/loader.ts:50 | a path without '/' is its own last segment |
| ConfigLoader.FormatOf | src/core/config/loader.ts:54-78 | YAML exactly for ".yml"/".yaml", JSON exactly for ".json", otherwise the "Unsupported config file format" error naming the extension |
| ConfigLoader.ExtnameLastSegment | src/core/config/loader.ts:50 | only the last path segment decides the extension |
| ConfigLoader.ExtnameNamed | src/core/config/loader.ts:50 | `<dir>/<stem>.<ext>` with a non-empty stem has extension `.<ext>` |
| ConfigLoader.DotfileUnsupported | src/core/config/loader.ts:50-60 | a dotfile such as `.faberrc` has no extension, so loading or saving it directly throws |
| ConfigLoader.LoadFromFile | src/core/config/loader.ts:48-63 | an unreadable file fails; a readable one with an unsupported extension throws that error; success needs a supported extension |
| ConfigLoader.SaveContent | src/core/config/loader.ts:68-81 | a supported extension exactly when something is written: the YAML or the JSON dump of the config |
| ConfigLoader.Load | src/core/config/loader.ts:34-43 | no (or a falsy) search result gives the default configuration; an object result is validated |
| ConfigState.PlatformFor | src/core/config/index.ts:54-57 | a role's platform is present exactly when `platforms` is an object with a truthy entry for the role, and then it is that entry |
| ConfigState.McpServerFor | src/core/config/index.ts:62-65 | a server's config is present exactly when `mcp_servers` is an object with a truthy entry for it, and then it is that entry |
| ConfigState.OverlaysEnabled | src/core/config/index.ts:70-73 | overlays are off exactly when `overlays.enabled` is literally false |
| ConfigState.OverlayPaths | src/core/config/index.ts:78-81 | truthy configured paths are returned; otherwise the default overlay path |
| ConfigState.DefaultOverlaysSection | src/core/config/loader.ts:170-173 | the default configuration's overlays section is enabled with the default path |
| ConfigState.DefaultOverlaysFields | src/core/config/loader.ts:170-173 | the default overlays section reads `enabled: true` and `paths: ['.faber/overlays']` |
| ConfigState.DefaultOverlays | src/core/config/index.ts:70-81 | the default configuration enables overlays and searches the default path |
| ConfigState.MissingOverlaysSection | src/core/config/loader.ts:134-136 | a config without an overlays section is given `{enabled: true}`: overlays are on and searched in the default path |
| ConfigState.EnabledOnlyFields | src/core/config/loader.ts:135 | the filled overlays section holds `enabled: true` and no paths |
| ConfigState.OverlaysEnabledUnlessFalse | src/core/config/index.ts:72 | only an explicit `enabled: false` switches overlays off |
| ConfigState.UpdateWins | src/core/config/index.ts:41-49 | after an update, a non-object value the update sets is the stored value |
| ConfigState.GlobalConfig.constructor | src/core/config/index.ts:13-14 | nothing is stored and no loader exists at module load |
| ConfigState.GlobalConfig.InitConfig | src/core/config/index.ts:19-26 | always loads again and stores the result; a throw leaves the stored config as it was |
| ConfigState.GlobalConfig.GetConfig | src/core/config/index.ts:31-36 | loads only when nothing is stored, otherwise returns the stored config unchanged |
| ConfigState.GlobalConfig.UpdateConfig | src/core/config/index.ts:41-49 | stores and returns the merge of the current config with the updates |
| ConfigState.GlobalConfig.GetPlatformForRole | src/core/config/index.ts:54-57 | the platform accessor applied to the current config |
| ConfigState.GlobalConfig.GetMcpServerConfig | src/core/config/index.ts:62-65 | the server accessor applied to the current config |
| ConfigState.GlobalConfig.OverlaysEnabledNow | src/core/config/index.ts:70-73 | the enabled accessor applied to the current config |
| ConfigState.GlobalConfig.OverlayPathsNow | src/core/config/index.ts:78-81 | the paths accessor applied to the current config |
| ConfigState.GetConfigTwice | src/core/config/index.ts:31-36 | two `getConfig()` calls in a row return the same config once the first succeeds |
| Bindings.CreateBinding | src/bindings/index.ts:22-45 | a binding exactly for "claude" or "claude-code"; LangGraph and CrewAI get their not-implemented errors, any other framework the unknown-framework error |
| Bindings.ClaudeCodeSupport | src/bindings/index.ts:24-34 | the Claude Code binding is "claude-code" 1.0.0 and supports roles, tools and evals, not teams or workflows |
| ClaudeCode.Placeholder | src/bindings/claude-code/transformer.ts:296-298 | a string metadata field renders as itself; anything else renders as "undefined" |
| ClaudeCode.ResolvePath | src/bindings/claude-code/transformer.ts:294-299 | a template without placeholders is returned unchanged |
| ClaudeCode.ResolveLeadingName | src/bindings/claude-code/transformer.ts:298 | only the first `{name}` is replaced: a later one stays as written |
| ClaudeCode.Dirs | src/bindings/claude-code/transformer.ts:52 | one directory pushed per write |
| ClaudeCode.LastWriteNone | src/bindings/claude-code/transformer.ts:151 | a path has no last write exactly when it was never written |
| ClaudeCode.LastWriteAt | src/bindings/claude-code/transformer.ts:151 | a write that no later write to its path overwrites is the last write to that path |
| ClaudeCode.LastWriteAppend | src/bindings/claude-code/transformer.ts:51-68 | a later run of writes decides the content of every path it writes |
| ClaudeCode.ApplyWritesGet | src/bindings/claude-code/transformer.ts:42 | the files map holds, for each path, the content last written to it, or what it held before |
| ClaudeCode.ApplyWritesKeys | src/bindings/claude-code/transformer.ts:42 | the map's keys are its old keys and the written paths, each once |
| ClaudeCode.ApplyWritesDistinct | src/bindings/claude-code/transformer.ts:42 | the files map never repeats a key |
| ClaudeCode.ApplyWritesAppend | src/bindings/claude-code/transformer.ts:51-68 | writing two runs is writing the first, then the second |
| ClaudeCode.DirsAppend | src/bindings/claude-code/transformer.ts:52-69 | the directories of two runs are the first run's followed by the second's |
| ClaudeCode.FilesStep | src/bindings/claude-code/transformer.ts:151 | one more write is one more `files.set` |
| ClaudeCode.DirsStep | src/bindings/claude-code/transformer.ts:152 | one more write pushes its parent directory |
| ClaudeCode.Deployment.constructor | src/bindings/claude-code/transformer.ts:42-43 | a deployment starts with no files and no directories |
| ClaudeCode.Deployment.Record | src/bindings/claude-code/transformer.ts:51-52 | sets the path's content and pushes its parent directory |
| ClaudeCode.Deployment.RecordAll | src/bindings/claude-code/transformer.ts:142-153 | records a run of writes in order |
| ClaudeCode.ContextFile | src/bindings/claude-code/transformer.ts:144-149 | a context with truthy metadata gets a YAML frontmatter block before its content; otherwise its content alone |
| ClaudeCode.ContextWritesStep | src/bindings/claude-code/transformer.ts:142-153 | the context writes follow the role's context map one entry at a time |
| ClaudeCode.DocumentValues | src/bindings/claude-code/transformer.ts:98-99 | the map's values, one per entry, in order |
| ClaudeCode.FilesChain | src/bindings/claude-code/transformer.ts:37-69 | recording the six runs of writes one after the other records their concatenation |
| ClaudeCode.DirsChain | src/bindings/claude-code/transformer.ts:37-69 | the directories of the six runs are concatenated in order |
| ClaudeCode.CopyEntry | src/bindings/claude-code/transformer.ts:172-181 | one layer entry's copies, computing `EntryWrites` |
| ClaudeCode.CopyLayer | src/bindings/claude-code/transformer.ts:184-196 | the copies of every entry of a layer record, computing `LayerWrites` |
| ClaudeCode.LayerWritesSnoc | src/bindings/claude-code/transformer.ts:184-196 | the layer writes grow entry by entry |
| ClaudeCode.TagEntry | src/bindings/claude-code/transformer.ts:308-313 | appends one entry's contexts, each given its overlay path |
| ClaudeCode.TagLayer | src/bindings/claude-code/transformer.ts:316-323 | appends every entry's tagged contexts in insertion order |
| ClaudeCode.LayerTaggedStep | src/bindings/claude-code/transformer.ts:316-323 | the tagged contexts grow entry by entry |
| ClaudeCode.CollectOverlayContexts | src/bindings/claude-code/transformer.ts:304-336 | the collection loop computes `TemplateOverlayContexts` |
| ClaudeCode.GetMcpServers | src/bindings/claude-code/transformer.ts:341-356 | the server loop computes `McpServers` |
| ClaudeCode.Transformer.constructor | src/bindings/claude-code/transformer.ts:26-32 | the transformer holds its binding config and compiled templates |
| ClaudeCode.Transformer.GenerateAgentFile | src/bindings/claude-code/transformer.ts:89-126 | the rendered frontmatter, a newline and the rendered body, over the template data |
| ClaudeCode.Transformer.CopyContexts | src/bindings/claude-code/transformer.ts:131-154 | records the role's context files in map order |
| ClaudeCode.Transformer.CopyOverlayContexts | src/bindings/claude-code/transformer.ts:159-212 | records organization, then platform, then role overlay copies |
| ClaudeCode.Transformer.CopyDocuments | src/bindings/claude-code/transformer.ts:228-232 | records one file per document, named after the document |
| ClaudeCode.Transformer.CopyTasks | src/bindings/claude-code/transformer.ts:217-233 | records one copy per task |
| ClaudeCode.Transformer.CopyFlows | src/bindings/claude-code/transformer.ts:238-254 | records the flow copies |
| ClaudeCode.Transformer.Transform | src/bindings/claude-code/transformer.ts:37-84 | the artifact of the deployment, without its timestamp |
| ClaudeCode.Transformer.Deploy | src/bindings/claude-code/transformer.ts:42-69 | every write of the transform recorded in order, from an empty deployment |
| ClaudeCodeFacts.FileKeysInWriteOrder | src/bindings/claude-code/transformer.ts:42 | a Map lists its keys in the order they were first set |
| ClaudeCodeFacts.ArtifactFiles | src/bindings/claude-code/transformer.ts:37-84 | the artifact lists every written path once, in first-write order, each with its last written content |
| ClaudeCodeFacts.SurvivingWrite | src/bindings/claude-code/transformer.ts:37-84 | a write no later step overwrites is what the artifact holds at its path |
| ClaudeCodeFacts.ConfigFileWritten | src/bindings/claude-code/transformer.ts:66-69 | the config is written last, so `config_path` always holds the YAML dump of the config |
| ClaudeCodeFacts.AgentFileWritten | src/bindings/claude-code/transformer.ts:46-51 | the agent file is in the artifact unless a later write reuses its path |
| ClaudeCodeFacts.DirsMembers | src/bindings/claude-code/transformer.ts:52 | a directory is listed exactly when it is the parent of some written path |
| ClaudeCodeFacts.ArtifactDirectories | src/bindings/claude-code/transformer.ts:81 | the artifact's directories are distinct and are exactly the parents of the written paths |
| ClaudeCodeFacts.JoinUnder | src/bindings/claude-code/transformer.ts:173-178 | a joined path lies under its first part |
| ClaudeCodeFacts.PrefixJoin | src/bindings/claude-code/transformer.ts:173-178 | a prefix of a directory is a prefix of paths joined below it |
| ClaudeCodeFacts.EntryWritesUnder | src/bindings/claude-code/transformer.ts:172-181 | every copy of an entry's contexts lies under its directory |
| ClaudeCodeFacts.LayerWritesUnder | src/bindings/claude-code/transformer.ts:184-211 | every copy made for a layer record lies under `<overlays>/<kind>/` |
| ClaudeCodeFacts.KindChar | src/bindings/claude-code/transformer.ts:169-207 | the character after `<overlays>/` tells which kind a path belongs to |
| ClaudeCodeFacts.KeyOf | src/bindings/claude-code/transformer.ts:151 | a written path has a write in the run |
| ClaudeCodeFacts.OverlayKindsDisjoint | src/bindings/claude-code/transformer.ts:159-212 | organization, platform and role overlays go to separate directories, so no overlay copy of one kind overwrites another kind's |
| ClaudeCodeFacts.LayerTaggedMatches | src/bindings/claude-code/transformer.ts:316-333 | the agent file sees a record's contexts in order, each given a path and otherwise unchanged |
| ClaudeCodeFacts.OverlayContextsCollected | src/bindings/claude-code/transformer.ts:304-336 | organization, platform and role contexts in that order and none other, each otherwise unchanged and with the path `/.faber/overlays/<dir>/contexts/<category>/<name>.md` of its own directory |
| ClaudeCodeFacts.LayerTaggedDirs | src/bindings/claude-code/transformer.ts:316-333 | each of a record's contexts is tagged with the directory `<kind>/<entry name>` of the entry it came from |
| ClaudeCodeFacts.OverlayPathsCollected | src/bindings/claude-code/transformer.ts:304-336 | the directories are `organization`, then `platforms/<name>` and `roles/<name>` per entry, in collection order |
| ClaudeCodeFacts.ServerMapGet | src/bindings/claude-code/transformer.ts:345-353 | a server is in the map exactly when some role context names it and the config defines it, with the config's value |
| ClaudeCodeFacts.NamesServerSnoc | src/bindings/claude-code/transformer.ts:345-347 | a server named by the contexts is named by the earlier ones or the last |
| ClaudeCodeFacts.ServerMapDistinct | src/bindings/claude-code/transformer.ts:350 | each server appears once in the map |
| ClaudeCodeFacts.McpServersExact | src/bindings/claude-code/transformer.ts:341-356 | null exactly when no referenced server is defined, otherwise each defined referenced server once |
| ClaudeCodeFacts.TeamsAndWorkflowsIgnored | src/bindings/claude-code/transformer.ts:159-212 | team and workflow overlays play no part in the deployment |
| Text.JoinWithAppend | src/utils/template.ts:55-57 | joining two runs of parts is joining each and putting one separator between them |
| Text.JoinSplit | src/utils/template.ts:62 | joining the pieces of a split at the same character gives the text back |
| Text.SplitJoin | src/utils/template.ts:62 | splitting a join of separator-free lines gives the lines back |
| Template.MarkCapitals | src/utils/template.ts:17 | an underscore goes before a leading capital; a leading non-capital stays first; nothing is removed |
| Template.DropLeadingUnderscore | src/utils/template.ts:17 | exactly one leading underscore is removed, and nothing else changes |
| Template.DashesToUnderscores | src/utils/template.ts:17 | every dash becomes an underscore and every other character stays |
| Template.SnakeCase | src/utils/template.ts:16-18 | the result holds no dash and no capital |
| Template.SnakeCharsRewrites | src/utils/template.ts:17 | the three rewrites amount to a character-by-character conversion |
| Template.LowerAppend | src/utils/template.ts:17 | lower-casing distributes over concatenation |
| Template.UpperAppend | src/utils/template.ts:33 | upper-casing distributes over concatenation |
| Template.DashesAppend | src/utils/template.ts:17 | the dash rewrite distributes over concatenation |
| Template.SnakeCaseByCharacter | src/utils/template.ts:16-18 | snake_case equals its character-by-character description |
| Template.SnakeCaseFixed | src/utils/template.ts:16-18 | a lower-case, dash-free word not led by '_' is left unchanged |
| Template.SnakeCharsIdentity | src/utils/template.ts:17 | lower-case, dash-free text converts to itself |
| Template.SnakeCaseLeading | src/utils/template.ts:17 | snake_case is not idempotent: a leading dash survives as '_', which a second pass strips |
| Template.SnakeCaseCapital | src/utils/template.ts:17 | a capital inside a word starts a new '_'-separated lower-case word |
| Template.CapitalChars | src/utils/template.ts:17 | a capital followed by a plain word becomes '_', its lower-case letter and the word |
| Template.SnakeCharsAppend | src/utils/template.ts:17 | the character conversion distributes over concatenation |
| Template.UpperSnakeCase | src/utils/template.ts:32-34 | the result holds no dash and no lower-case letter |
| Template.UpperSnakeIsUpperSnake | src/utils/template.ts:32-34 | UPPER_SNAKE_CASE is snake_case in capitals |
| Template.CamelCase | src/utils/template.ts:21-23 | never longer than the input; a non-empty input keeps a first character |
| Template.CamelNoDashLower | src/utils/template.ts:22 | the result has no dash directly before a lower-case letter |
| Template.ConsNoDashLower | src/utils/template.ts:22 | a character that is not a dash before a lower-case letter keeps the property |
| Template.CamelFixed | src/utils/template.ts:22 | text with no dash before a lower-case letter is unchanged |
| Template.CamelIdempotent | src/utils/template.ts:21-23 | converting to camelCase twice is the same as once |
| Template.KebabCamel | src/utils/template.ts:21-23 | undoing camelCase gives back lower-case dashed words |
| Template.CamelKebab | src/utils/template.ts:21-23 | camelCase undoes the reverse conversion on dash-free text |
| Template.PascalCase | src/utils/template.ts:26-29 | the camelCase text with its first character upper-cased |
| Template.PascalShape | src/utils/template.ts:26-29 | no dash before a lower-case letter, and no lower-case first character |
| Template.PascalIdempotent | src/utils/template.ts:26-29 | converting to PascalCase twice is the same as once |
| Template.QuoteAll | src/utils/template.ts:38 | one quoted item per item |
| Template.PythonList | src/utils/template.ts:37-39 | the rendering is bracketed |
| Template.QuotedHead | src/utils/template.ts:38 | a quoted item without inner quotes is read back at the head |
| Template.ReadItemsLast | src/utils/template.ts:38 | a single quoted item is read back |
| Template.ReadItemsCons | src/utils/template.ts:38 | a quoted item and ", " are read off before the rest |
| Template.JoinQuotedCons | src/utils/template.ts:38 | the joined list body is the first quoted item, ", " and the rest |
| Template.ReadItemsJoin | src/utils/template.ts:38 | the joined quoted items of a non-empty list are read back |
| Template.PythonListReadBack | src/utils/template.ts:37-39 | a list whose items contain no double quote is read back from its rendering |
| Template.PythonListEmpty | src/utils/template.ts:38 | an empty list renders as "[]" |
| Template.Prefixed | src/utils/template.ts:62 | the same number of lines, each with the indent in front |
| Template.Indent | src/utils/template.ts:60-63 | a negative count is the RangeError of `repeat`; any other count succeeds |
| Template.IndentLines | src/utils/template.ts:60-63 | the indented text has the same lines, each behind the blanks |
| Template.IndentZero | src/utils/template.ts:60-63 | indenting by zero gives the text back |
| Template.TemplateCache.constructor | src/utils/template.ts:76-79 | the cache starts empty |
| Template.TemplateCache.LoadTemplate | src/utils/template.ts:76-90 | a cached path is answered without reading; otherwise the file is read, compiled and cached; a failed read leaves the cache as it was |
| Template.TemplateCache.RenderTemplateFile | src/utils/template.ts:105-111 | loads through the cache, then renders the template |
| Template.TemplateCache.ClearTemplateCache | src/utils/template.ts:116-118 | the cache is empty afterwards |
| Template.LoadTwice | src/utils/template.ts:78-80 | a second load of the same path returns the first result, whatever the file then holds |
| Validation.RestShapeCons | src/utils/validation.ts:51 | the rest of a name has the shape exactly when its head and tail do |
| Validation.MatchShape | src/utils/validation.ts:51 | the expression's runs match exactly the kebab-case strings |
| Validation.ValidateConceptName | src/utils/validation.ts:49-53 | a name passes exactly when it is non-empty over `[a-z0-9-]` with no leading, trailing or doubled hyphen |
| Validation.ValidatePlatformName | src/utils/validation.ts:58-62 | platform names obey the same rule |
| Validation.ConceptNameIsSlug | src/utils/validation.ts:51 | a valid concept name also passes the metadata name rule |
| Validation.SlugNotConceptName | src/utils/validation.ts:51 | the metadata rule is looser: "-a" and "a--b" pass it but not the name check |
| Validation.ValidateFilePath | src/utils/validation.ts:67-70 | a path passes exactly when it is non-empty and holds no NUL character |
| Validation.PlainSplit | src/utils/validation.ts:76 | a run free of whitespace and '@' splits into two such runs |
| Validation.EmailSound | src/utils/validation.ts:76 | every accepted address matches the expression |
| Validation.EmailComplete | src/utils/validation.ts:76 | every split into local part, domain head and top part is accepted |
| Validation.EmailMatches | src/utils/validation.ts:75-78 | the check accepts exactly the strings of the expression |
| Validation.EmailShape | src/utils/validation.ts:75-78 | an accepted address has no whitespace, one '@', a non-empty local part and a dot inside the domain |
| Validation.FirstAt | src/utils/validation.ts:76 | the only '@' is the one found |
| Validation.Span | src/utils/validation.ts:96 | the longest prefix whose characters satisfy the test |
| Validation.SpanOf | src/utils/validation.ts:96 | a qualifying prefix followed by a non-qualifying character is the span |
| Validation.TagsOf | src/utils/validation.ts:96 | the two optional tags are read back |
| Validation.PreTagsOf | src/utils/validation.ts:96 | a '-' tag followed by an optional '+' tag is read back |
| Validation.ParseShow | src/utils/validation.ts:96 | every well-formed version's string is read back into the same parts |
| Validation.NumberOfR | src/utils/validation.ts:96 | a digit run and a dot are read off |
| Validation.TagsShow | src/utils/validation.ts:96 | what the tag reader accepts is well formed and spells its input |
| Validation.NumberShow | src/utils/validation.ts:96 | what the number reader accepts is a digit run, a dot and the rest |
| Validation.PatchShow | src/utils/validation.ts:96 | the patch digits and the tags spell the text after the minor number |
| Validation.SpanPrefix | src/utils/validation.ts:96 | the span's characters all satisfy the test |
| Validation.SplitAt | src/utils/validation.ts:96 | a string is its prefix followed by its suffix |
| Validation.ShowParse | src/utils/validation.ts:96 | whatever the reader accepts is well formed and spells the input |
| Validation.SemverMatches | src/utils/validation.ts:95-98 | the check accepts exactly the strings some well-formed version spells |
| Validation.LeadingZerosAccepted | src/utils/validation.ts:96 | leading zeros pass, unlike section 2 of Semantic Versioning 2.0.0 |
| Validation.CreateValidationResult | src/utils/validation.ts:34-44 | the result holds the validity flag, and omitted error or warning lists are empty |
| CodexMetadata.OrEmpty | src/tools/codex/commands/route.ts:135-136 | a missing include or exclude list reads as the empty list; a present one is kept as it is |
| CodexMetadata.ReadFileContent | src/tools/codex/utils/file-scanner.ts:54-60 | a successful read passes the content through; a failed read becomes the error "Failed to read file <path>: <message>" |
| CodexRoute.MatchesPattern | src/tools/codex/commands/route.ts:167-172 | the pattern `*` matches every value |
| CodexRoute.StarMatchesAll | src/tools/codex/commands/route.ts:168 | the anchored glob `*` matches every value, so the `*` shortcut agrees with the general match |
| CodexRoute.LiteralPattern | src/tools/codex/commands/route.ts:170-171 | a pattern containing no `*` matches exactly the identical string |
| CodexRoute.GlobConcat | src/tools/codex/commands/route.ts:170-171 | a concatenated pattern matches a value exactly when the value splits into a part matching each piece (the match is anchored at both ends) |
| CodexRoute.StarConcatSplit | src/tools/codex/commands/route.ts:170 | a leading `*` matches the empty string or swallows one more character |
| CodexRoute.LiteralConcatSplit | src/tools/codex/commands/route.ts:170 | a leading literal character must equal the value's first character, after which the rest of the pattern matches the rest of the value |
| CodexRoute.StarBetween | src/tools/codex/commands/route.ts:170-171 | `a*b` matches a value exactly when some prefix matches `a` and the following suffix matches `b`, with any text in between |
| CodexRoute.FirstMatching | src/tools/codex/commands/route.ts:140-157 | the index found is that of a matching pattern with no matching pattern before it; none is found only when no pattern matches |
| CodexRoute.RoutingReason | src/tools/codex/commands/route.ts:133-162 | when syncing, the reason names the first matching include, or "Matches sync rules" when none matches; otherwise a missing include list wins, then the first matching exclude, then "No matching include patterns" |
| CodexRoute.SyncReasonWithStar | src/tools/codex/commands/route.ts:138-145 | with a `*` among the includes a syncing file's reason always names a pattern, at or before the first `*` |
| CodexFormat.Line | src/tools/codex/utils/output-formatter.ts:16-41 | a field contributes one line when it is shown and none otherwise |
| CodexFormat.ShownText | src/tools/codex/utils/output-formatter.ts:16-31 | a text field is shown exactly when it is present and non-empty, and then as it is |
| CodexFormat.NonEmptyList | src/tools/codex/utils/output-formatter.ts:22-37 | a list field is shown exactly when it is present and non-empty, as its items joined by ", " |
| CodexFormat.FormatMetadata | src/tools/codex/utils/output-formatter.ts:11-44 | a negative indent is an error (the string repeat throws); otherwise the text is the metadata lines joined by newlines |
| CodexFormat.PushShown | src/tools/codex/utils/output-formatter.ts:16 | pushing a field appends exactly that field's line, if it is shown |
| CodexFormat.MetadataLineCount | src/tools/codex/utils/output-formatter.ts:11-44 | there is one line per shown field |
| CodexFormat.FlatAppend | src/tools/codex/utils/output-formatter.ts:43 | joining two newline-free runs of lines gives a newline-free run |
| CodexFormat.Flat10 | src/tools/codex/utils/output-formatter.ts:43 | the ten field contributions together stay newline-free when each is |
| CodexFormat.LineFlat | src/tools/codex/utils/output-formatter.ts:16 | a field line without newlines in its caption and value has none |
| CodexFormat.MetadataLinesFlat | src/tools/codex/utils/output-formatter.ts:11-44 | metadata whose values hold no newline produce lines that hold none |
| CodexFormat.TextLinesFlat | src/tools/codex/utils/output-formatter.ts:16-41 | each text field's line is newline-free when its value is |
| CodexFormat.ListLinesFlat | src/tools/codex/utils/output-formatter.ts:22-37 | each list field's line is newline-free when its items are |
| CodexFormat.MetadataListingLines | src/tools/codex/utils/output-formatter.ts:11-44 | the listing splits back at newlines into exactly its lines, one per shown field, in the fixed field order |
| CodexFormat.EmptyMetadataListing | src/tools/codex/utils/output-formatter.ts:43 | metadata with no shown field gives the empty string |
| CodexFormat.AnyList | src/tools/codex/utils/output-formatter.ts:63-68 | a rule list is shown whenever present, even when empty, as its items joined by ", " |
| CodexFormat.FormatValidationSuccess | src/tools/codex/utils/output-formatter.ts:56-76 | without metadata only the check line; with metadata the detail lines follow, each indented on its own line, and only when there is at least one |
| CodexFormat.BareSuccess | src/tools/codex/utils/output-formatter.ts:70-72 | metadata without org, system and rule lists shows no details |
| CodexFormat.TwoLines | src/tools/codex/utils/output-formatter.ts:50 | two newline-free lines joined by a newline split back into those two lines |
| CodexFormat.ValidationLines | src/tools/codex/utils/output-formatter.ts:49-83 | an error or warning message is two lines: the symbol and the path, then the indented "- " and the message |
| CodexFormat.RoutingDecisionLines | src/tools/codex/utils/output-formatter.ts:105-112 | a routing decision is two lines: ✓ when it syncs, ✗ otherwise, with the repository, then the indented reason |
| CodexFormat.PluralUnlessOne | src/tools/codex/utils/output-formatter.ts:96-97 | a count phrase is singular exactly when the count is 1 |
| CodexFormat.SummaryParts | src/tools/codex/utils/output-formatter.ts:93-97 | only non-zero counts appear, in the order valid, errors, warnings, each with its own phrase |
| CodexFormat.FormatSummary | src/tools/codex/utils/output-formatter.ts:88-100 | the summary is the "Summary:" line carrying the parts joined by ", " |
| CodexFormat.EmptySummary | src/tools/codex/utils/output-formatter.ts:99 | with all counts zero the summary has no parts |
| CodexFormat.SliceEnd | src/tools/codex/utils/output-formatter.ts:126 | the end of a slice never passes the end of the line list |
| CodexFormat.FormatContentPreview | src/tools/codex/utils/output-formatter.ts:124-134 | the preview is the one `ContentPreview` specifies, whose effect `ShortContentUnchanged` and `LongContentPreview` state |
| CodexFormat.ShortContentUnchanged | src/tools/codex/utils/output-formatter.ts:124-134 | content of at most maxLines lines is returned unchanged |
| CodexFormat.LongContentPreview | src/tools/codex/utils/output-formatter.ts:124-134 | longer content shows its first maxLines lines followed by exactly one line "... (k more lines)" with k the lines left out |
| CodexReporter.CountValid | src/tools/codex/utils/validation-reporter.ts:42-44 | the valid count never exceeds the number of results |
| CodexReporter.ErrorTotalPositive | src/tools/codex/utils/validation-reporter.ts:45-57 | the error total is positive exactly when some result has an error |
| CodexReporter.WarningTotalPositive | src/tools/codex/utils/validation-reporter.ts:46-64 | the warning total is positive exactly when some result has a warning |
| CodexReporter.AllClean | src/tools/codex/utils/validation-reporter.ts:41-44 | every result counts as valid exactly when every result is valid and free of errors |
| CodexReporter.SummaryConcat | src/tools/codex/utils/validation-reporter.ts:36-50 | the summary of two runs of results is the sum of their summaries |
| CodexReporter.AddedSummary | src/tools/codex/utils/validation-reporter.ts:22-50 | adding a result adds one to the valid count iff it is clean, and adds its own error and warning counts |
| CodexReporter.ValidationReporter.constructor | src/tools/codex/utils/validation-reporter.ts:17 | a fresh reporter holds no results |
| CodexReporter.ValidationReporter.AddResult | src/tools/codex/utils/validation-reporter.ts:22-24 | the result is appended, the earlier results kept in order |
| CodexReporter.ValidationReporter.GetResults | src/tools/codex/utils/validation-reporter.ts:29-31 | the results in insertion order, nothing changed |
| CodexReporter.ValidationReporter.GetSummary | src/tools/codex/utils/validation-reporter.ts:36-50 | the loop computes the summary of the results, whose valid count is at most the number of results |
| CodexReporter.ValidationReporter.HasErrors | src/tools/codex/utils/validation-reporter.ts:55-57 | true exactly when the summary's error count is positive |
| CodexReporter.ValidationReporter.HasWarnings | src/tools/codex/utils/validation-reporter.ts:62-64 | true exactly when the summary's warning count is positive |
| CodexReporter.ValidationReporter.FormatSummary | src/tools/codex/utils/validation-reporter.ts:121-135 | the same summary line as the output formatter's, from the same non-zero parts |
| CodexReporter.ValidationReporter.ToJson | src/tools/codex/utils/validation-reporter.ts:140-145 | the report pairs the results with their summary |
| CodexCheck.Targets | src/tools/codex/commands/check.ts:65-70 | a `*` among the includes gives the single target "all repositories"; otherwise the includes in order |
| CodexCheck.CheckFiles | src/tools/codex/commands/check.ts:38-111 | the loop fills the buckets that `Analyze` specifies, and the summary counts are the bucket lengths |
| CodexCheck.PlacedCount | src/tools/codex/commands/check.ts:38-96 | at most one placement per scanned file |
| CodexCheck.BucketSizes | src/tools/codex/commands/check.ts:38-111 | the bucket lengths add up to the number of placed files, which is at most the number of scanned files |
| CodexCheck.Membership | src/tools/codex/commands/check.ts:44-95 | a path is in a bucket exactly when it was scanned and its classification (skipped when unreadable, no metadata, without rules, ready, or not for the target) names that bucket; a ready entry carries that classification's targets |
| CodexCheck.AtMostOneBucket | src/tools/codex/commands/check.ts:44-95 | no path is in two buckets |
| CodexCheck.TargetTestsArePatternMatches | src/tools/codex/commands/check.ts:72-87 | the inline include and exclude tests agree with the routing pattern match |
| CodexCheck.LiteralTargetRule | src/tools/codex/commands/check.ts:72-87 | with patterns free of `*`, a file with rules is ready for a target exactly when the target is among the includes and not among the excludes |
| CodexCheck.StarIncludeMatchesEveryTarget | src/tools/codex/commands/check.ts:74-78 | a `*` include matches every target |
| CodexValidate.SuccessWarningsIff | src/tools/codex/commands/validate.ts:147-158 | each of the three warnings appears exactly when its field is missing or empty, at most three in all |
| CodexValidate.ValidateFile | src/tools/codex/commands/validate.ts:106-165 | the result is the one `FileValidation` specifies, whose cases `FileValidationCases` states |
| CodexValidate.FileValidationCases | src/tools/codex/commands/validate.ts:114-162 | an unreadable file gives one "Failed to validate" error; no frontmatter gives one warning; an unparsable one one error; the result is valid exactly when the metadata parses and is not rejected with errors, and then carries the metadata, no errors and the success warnings |
| CodexValidate.ValidateAllSpec | src/tools/codex/commands/validate.ts:73-76 | one result per file |
| CodexValidate.ValidateAllAt | src/tools/codex/commands/validate.ts:73-76 | the k-th result is the k-th file's, in order |
| CodexValidate.ExitStatus | src/tools/codex/commands/validate.ts:86-92 | the status is 0 or 1 |
| CodexValidate.ValidateCommand | src/tools/codex/commands/validate.ts:73-92 | the report holds every file's result in order with their summary, and the exit status follows the error and warning rule |
| CodexValidate.ExitStatusRule | src/tools/codex/commands/validate.ts:86-92 | the status is non-zero exactly when some file's result has an error, or under strict mode a warning |
| CodexValidate.NoFrontmatterOnlyWarns | src/tools/codex/commands/validate.ts:86-122 | a file without frontmatter fails the command only under strict mode |
| CodexValidate.RejectedWithoutErrorsPasses | src/tools/codex/commands/validate.ts:133-141 | metadata rejected without an error list is reported valid |
| CodexValidate.RejectedWithEmptyErrors | src/tools/codex/commands/validate.ts:135-141 | metadata rejected with an empty error list counts as neither valid nor in error and does not fail the command |
| CodexList.Selection | src/tools/codex/commands/list.ts:41-77 | no more entries than scanned files |
| CodexList.ListFiles | src/tools/codex/commands/list.ts:41-77 | the loop keeps the entries `Selection` specifies, in scan order |
| CodexList.SelectionConcat | src/tools/codex/commands/list.ts:41-77 | selecting from two runs of files selects from each in turn, so scan order is kept |
| CodexList.SelectionMembership | src/tools/codex/commands/list.ts:44-72 | an entry is listed exactly when its path was scanned, it carries that file's metadata, and the metadata passes every set filter |
| CodexList.NoFiltersKeepAll | src/tools/codex/commands/list.ts:57-72 | with no filter set, every file with metadata is listed |
| CodexList.TagFilterNeedsTags | src/tools/codex/commands/list.ts:61-63 | under a tag filter a file without tags is never listed |
| CodexList.SystemFilterExact | src/tools/codex/commands/list.ts:57-59 | under a system filter every listed entry has exactly that system |

## Left out

- `dist/`: compiled output, not source; only the source under `src/` is modelled.
- Disk I/O (`fs`, `src/tools/codex/utils/file-system.ts` and the file scanner's glob): a snapshot or a reader function stands for the disk, and the scanned file list is a parameter.
- YAML and JSON parsing and dumping (js-yaml, `JSON.parse`, `JSON.stringify`): parameters. A parse failure is `None`, standing for a thrown error.
- zod: each schema is modelled as the rules it checks. Shape errors on values of other JSON types count as the value being absent where the code reads typed fields.
- Handlebars compile and render: parameters of the template cache and of the transformer.
- chalk colouring: treated as the identity, so the formatted strings are the plain text.
- cosmiconfig: the search result is a parameter of `ConfigState`.
- The `@fractary/codex` library: `hasFrontmatter`, `parseMetadata` and `validateMetadata` are parameters, taken to be total functions that do not throw.
- The `URL` constructor and `validateUrl`: they depend on the WHATWG URL parser, which is not modelled.
- `path.join` normalisation of `.` and `..` segments: joining is plain concatenation with `/`.
- Regular-expression metacharacters other than `*` in routing patterns: every other character is matched literally.
- CodexRoute.GlobMatch: `*` matches any run of characters, while the source's `.*` does not match line terminators, so a value holding a newline fails a `*` pattern in JavaScript but can match here.
- `expandEnvVars` in the configuration loader: it reads the process environment.
- The generation timestamp written into the deployment (src/bindings/claude-code/transformer.ts:75): a clock reading, left out of the file contents.
- Failures while loading the binding configuration and templates (src/bindings/claude-code/transformer.ts:259-289): the loaded configuration is a constructor parameter.
- The command-line layer (`src/cli.ts`, `src/cli/*`, `src/tools/faber/*`, the codex command index and its `init`, `config` and `parse` commands): argument parsing and console output.
- `ValidationReporter.print`, `printMetadata` and all console output: they only print.
- `src/api.ts` and `src/core/concepts/index.ts`: re-exports and thin wrappers around the modelled loaders.
- The rest of `src/types` beyond the enums and records used here, which are declarations only.
- Concurrency and `async`: every await is taken in program order.
- The `js_array` and `if_eq` template helpers: they depend on `JSON.stringify` and Handlebars block semantics.
- `formatJSON`: a call to `JSON.stringify`.
- Case mapping outside ASCII letters in `toLowerCase` and `toUpperCase`.
- Fractional repeat counts in `' '.repeat(n)`: counts are integers.
- The "No files found" early exits of the codex commands: they happen before the per-file loops.
- The `validate` command's handling of a missing path and of a file versus a directory: the list of files to validate is a parameter.
- The JSON and console output of `check` and `list`: the modelled result is the buckets and the filtered list those outputs print.
- Json.SpreadFields: spreading a string or an array contributes its index keys in JavaScript; the model lets every non-object contribute nothing, since the spread values in the source are parsed metadata objects.
- ConfigLoader.Step: keys JavaScript finds on the prototype of an object or array (`toString`, `constructor`, `__proto__`, the array methods) count as missing; the source's `in` test would find them.
- ConfigLoader.LookupNone: follows Step, so a path through a prototype key is undefined in the model.
- ConfigLoader.AssignKey: an array write JSON values cannot represent (an index past `length`, which leaves a hole; a `length` above the element count or that is neither an integer nor an object; a named property that is not an index) gives the outcome `ArrayUpdateUnmodelled` instead of the write.
- ConfigLoader.SetIn: follows AssignKey for those array writes.
- ConfigLoader.Set: a walk that throws part-way is reported by its error alone; in the source the caller's nested objects already hold the `{}` written before the throw.
- ConfigLoader.AsConfig: an array config is accepted by the source, which adds the section properties to the array itself; the model reports an error.
- ConfigLoader.Load: an array search result is an error in the model, as in AsConfig.
- Json.JInt: numbers are integers; fractional values and NaN are not represented.
- Eval.Threshold: a fractional threshold such as 0.75 and NaN (falsy, so it also gives 80) are outside the integer model.
- ClaudeCode.Placeholder: a non-string metadata value is treated as missing and inserts "undefined"; the source converts it with `String()`.
- ClaudeCode.ResolvePath: the metadata value is the replacement argument of `String.prototype.replace`, so `$&`, `` $` ``, `$'` and `$$` in it are expanded by JavaScript; the model inserts it literally.
- Error texts that come from the JavaScript runtime or a library are approximated: a concept file's "Failed to parse <file>" leaves out the parser's own message that follows it, "Failed to parse <file>" for an unparsable config file stands for the parser's exception, and "Cannot create property 'platforms' on a non-object value" stands for V8's message naming the scalar.
- CodexReporter.ValidationReporter.GetResults: returns a copy of the results, while the source hands out its live array, which a caller could then change.
- Assoc.Put: an object keeps every key in insertion order; JavaScript lists integer-like keys first, in ascending order, which changes the order `Object.entries` gives over platforms, MCP servers and spread metadata that use such keys.
- ConfigLoader.Extname: a trailing '/' is not skipped, while `path.extname` ignores it.
- FileSystem.Dirname: a trailing '/' is not skipped, while `path.dirname` ignores it.
